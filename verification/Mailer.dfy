/** Classification of provider errors (internal/mailer/ses.go). */
module Mailer {

  datatype ProviderError =
    | Cancelled
    | TimedOut
    | Transport                 // no structured API error
    | Api(serverFault: bool, code: string)

  function Lower(s: string): (r: string) {
    seq(|s|, i requires 0 <= i < |s| => if 'A' <= s[i] <= 'Z' then s[i] - 'A' + 'a' else s[i])
  }

  predicate FoundAt(s: string, part: string, i: int) {
    0 <= i <= |s| - |part| && s[i..i + |part|] == part
  }

  predicate Contains(s: string, part: string) {
    exists i | 0 <= i <= |s| :: FoundAt(s, part, i)
  }

  predicate ContainsAny(s: string, parts: seq<string>) {
    exists k | 0 <= k < |parts| :: Contains(s, parts[k])
  }

  const DefiniteRejections := [
    "messagerejected", "reject", "invalid", "validation", "badrequest", "notverified", "configuration",
    "accessdenied", "sendingpaused", "notfound", "account.suspended"]

  const TemporaryCodes := ["throttl", "timeout", "unavailable", "internal", "too-many-requests", "toomanyrequests"]

  const PermanentCodes := ["reject", "invalid", "notverified", "configuration", "accessdenied", "sendingpaused"]

  /** Only a client-side API error with a definite marker proves the message was not taken. */
  predicate OutcomeUnknown(e: ProviderError) {
    !(e.Api? && !e.serverFault && ContainsAny(Lower(e.code), DefiniteRejections))
  }

  predicate Retryable(e: ProviderError) {
    if e.Cancelled? then false
    else e.Api? ==> ContainsAny(Lower(e.code), TemporaryCodes) || !ContainsAny(Lower(e.code), PermanentCodes)
  }
}
