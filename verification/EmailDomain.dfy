/** Email and send-attempt states, and the rule that decides whether a provider
    callback may move an email (internal/domain/email.go). */
module EmailDomain {

  datatype Option<+T> = None | Some(value: T)

  /** A lease, or any other time a row may carry, is set and over. */
  predicate Before(t: Option<int>, now: int) {
    t.Some? && t.value < now
  }

  datatype Status =
    | Queued | Sending | Sent | Delivered | Opened | Clicked
    | Bounced | Complained | Failed | Cancelled | Ambiguous

  datatype AttemptState =
    | NoAttempt | Leased | SendStarted | Accepted | Unresolved | FailedTerminal

  function ProviderStatusRank(s: Status): int {
    match s
    case Queued => 0
    case Sending | Ambiguous | Failed => 1
    case Sent => 2
    case Delivered => 3
    case Opened => 4
    case Clicked => 5
    case Bounced | Complained | Cancelled => -1
  }

  /** `None` is the empty target of callbacks that only record an event. */
  predicate ShouldApplyProviderStatus(current: Status, target: Option<Status>) {
    if target.None? || current.Cancelled? then false
    else if current.Complained? then false
    else if target.value.Complained? then true
    else if current.Bounced? then false
    else if target.value.Bounced? then true
    else if current.Failed? then false
    else if target.value.Failed? then ProviderStatusRank(current) < ProviderStatusRank(Delivered)
    else ProviderStatusRank(target.value) > ProviderStatusRank(current)
  }
}
