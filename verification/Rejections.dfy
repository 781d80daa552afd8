/** What the protocol takes for a definite rejection, in terms of the provider's own answer
    (internal/mailer/ses.go:135-206), and what it does with every answer. */
module Rejections {
  import opened EmailRows
  import opened SendProtocol
  import Mailer

  // ------------------------------------------------------------- what errors say

  /** Equal up to the case of an ASCII letter in the code. */
  predicate SameLetter(c: char, lower: char) {
    if 'A' <= c <= 'Z' then c - 'A' + 'a' == lower else c == lower
  }

  predicate MentionedAt(code: string, marker: string, i: int) {
    0 <= i <= |code| - |marker| && forall j | 0 <= j < |marker| :: SameLetter(code[i + j], marker[j])
  }

  /** The marker occurs somewhere in the code, in any mixture of cases. */
  predicate Mentions(code: string, marker: string) {
    exists i | 0 <= i <= |code| :: MentionedAt(code, marker, i)
  }

  /** The provider answered, the fault is the client's, and the code says that the message was
      not taken. */
  predicate Definite(e: Mailer.ProviderError) {
    && e.Api? && !e.serverFault
    && (|| Mentions(e.code, "messagerejected") || Mentions(e.code, "reject") || Mentions(e.code, "invalid")
        || Mentions(e.code, "validation") || Mentions(e.code, "badrequest") || Mentions(e.code, "notverified")
        || Mentions(e.code, "configuration") || Mentions(e.code, "accessdenied") || Mentions(e.code, "sendingpaused")
        || Mentions(e.code, "notfound") || Mentions(e.code, "account.suspended"))
  }

  /** A rejection worth another try: the code says so, or does not say the opposite. */
  predicate Temporary(code: string) {
    || Mentions(code, "throttl") || Mentions(code, "timeout") || Mentions(code, "unavailable")
    || Mentions(code, "internal") || Mentions(code, "too-many-requests") || Mentions(code, "toomanyrequests")
    || !(|| Mentions(code, "reject") || Mentions(code, "invalid") || Mentions(code, "notverified")
         || Mentions(code, "configuration") || Mentions(code, "accessdenied") || Mentions(code, "sendingpaused"))
  }

  lemma FoundIsMentioned(code: string, marker: string)
    ensures Mailer.Contains(Mailer.Lower(code), marker) <==> Mentions(code, marker)
  {
    var low := Mailer.Lower(code);
    forall i | 0 <= i <= |code| ensures Mailer.FoundAt(low, marker, i) <==> MentionedAt(code, marker, i) {
      if Mailer.FoundAt(low, marker, i) {
        var part := low[i..i + |marker|];
        assert forall j | 0 <= j < |marker| :: part[j] == low[i + j];
      }
      if MentionedAt(code, marker, i) {
        assert forall j | 0 <= j < |marker| :: low[i + j] == marker[j];
        assert low[i..i + |marker|] == marker;
      }
    }
    if i :| 0 <= i <= |low| && Mailer.FoundAt(low, marker, i) { assert MentionedAt(code, marker, i); }
    if i :| 0 <= i <= |code| && MentionedAt(code, marker, i) { assert Mailer.FoundAt(low, marker, i); }
  }

  lemma AnyFoundIsMentioned(code: string, markers: seq<string>)
    ensures Mailer.ContainsAny(Mailer.Lower(code), markers) <==>
            exists k | 0 <= k < |markers| :: Mentions(code, markers[k])
  {
    forall k | 0 <= k < |markers|
      ensures Mailer.Contains(Mailer.Lower(code), markers[k]) <==> Mentions(code, markers[k])
    {
      FoundIsMentioned(code, markers[k]);
    }
  }

  /** Everything but a definite rejection leaves the outcome unknown. */
  lemma UnknownUnlessDefinite(e: Mailer.ProviderError)
    ensures Mailer.OutcomeUnknown(e) <==> !Definite(e)
  {
    if e.Api? {
      var ms := Mailer.DefiniteRejections;
      AnyFoundIsMentioned(e.code, ms);
      assert |ms| == 11 && ms[0] == "messagerejected" && ms[1] == "reject" && ms[2] == "invalid"
        && ms[3] == "validation" && ms[4] == "badrequest" && ms[5] == "notverified" && ms[6] == "configuration"
        && ms[7] == "accessdenied" && ms[8] == "sendingpaused" && ms[9] == "notfound" && ms[10] == "account.suspended";
      assert (exists k | 0 <= k < |ms| :: Mentions(e.code, ms[k])) <==>
             || Mentions(e.code, ms[0]) || Mentions(e.code, ms[1]) || Mentions(e.code, ms[2])
             || Mentions(e.code, ms[3]) || Mentions(e.code, ms[4]) || Mentions(e.code, ms[5])
             || Mentions(e.code, ms[6]) || Mentions(e.code, ms[7]) || Mentions(e.code, ms[8])
             || Mentions(e.code, ms[9]) || Mentions(e.code, ms[10]);
    }
  }

  lemma RetryableIfTemporary(e: Mailer.ProviderError)
    requires e.Api?
    ensures Mailer.Retryable(e) <==> Temporary(e.code)
  {
    var ts, ps := Mailer.TemporaryCodes, Mailer.PermanentCodes;
    AnyFoundIsMentioned(e.code, ts);
    AnyFoundIsMentioned(e.code, ps);
    assert |ts| == 6 && ts[0] == "throttl" && ts[1] == "timeout" && ts[2] == "unavailable" && ts[3] == "internal"
      && ts[4] == "too-many-requests" && ts[5] == "toomanyrequests";
    assert |ps| == 6 && ps[0] == "reject" && ps[1] == "invalid" && ps[2] == "notverified" && ps[3] == "configuration"
      && ps[4] == "accessdenied" && ps[5] == "sendingpaused";
    assert (exists k | 0 <= k < |ts| :: Mentions(e.code, ts[k])) <==>
           || Mentions(e.code, ts[0]) || Mentions(e.code, ts[1]) || Mentions(e.code, ts[2])
           || Mentions(e.code, ts[3]) || Mentions(e.code, ts[4]) || Mentions(e.code, ts[5]);
    assert (exists k | 0 <= k < |ps| :: Mentions(e.code, ps[k])) <==>
           || Mentions(e.code, ps[0]) || Mentions(e.code, ps[1]) || Mentions(e.code, ps[2])
           || Mentions(e.code, ps[3]) || Mentions(e.code, ps[4]) || Mentions(e.code, ps[5]);
  }

  // --------------------------------------------------------------- over whole runs

  /** Step `m` is the provider's answer to the attempt. */
  predicate Answers(l: Label, c: Claim, a: Answer) {
    l == Provider(c, a)
  }

  ghost predicate Heard(ls: seq<Label>, k: nat, c: Claim, a: Answer)
    requires k <= |ls|
  {
    exists m | 0 <= m < k :: Answers(ls[m], c, a)
  }

  /** Nothing heard, nothing booked; and what is booked is the one answer heard. */
  ghost predicate BookedOk(s: State, ls: seq<Label>, k: nat, c: Claim)
    requires k <= |ls|
  {
    && (c !in s.runs || s.runs[c] in {Minted, HasLease, Started} ==> forall a :: !Heard(ls, k, c, a))
    && (c in s.started && s.started[c] == Unsent ==> forall a :: !Heard(ls, k, c, a))
    && (forall a | Heard(ls, k, c, a) :: c in s.runs && c in s.started)
    && (forall a | Heard(ls, k, c, a) :: s.started[c] == Taken <==> !a.Error?)
    && (forall a | Heard(ls, k, c, a) :: s.started[c] == Rejected <==> a.Error? && Definite(a.e))
    && (c in s.started && s.started[c] != Unsent ==> exists a :: Heard(ls, k, c, a))
  }

  lemma OneMoreAnswer(ls: seq<Label>, k: nat, c: Claim, a: Answer)
    requires k < |ls|
    ensures Heard(ls, k + 1, c, a) <==> Heard(ls, k, c, a) || ls[k] == Provider(c, a)
  {}

  lemma HearingBooks(s: State, c: Claim, a: Answer)
    requires c in s.runs
    ensures var s' := Hearing(s, c, a);
            && c in s'.started && s'.started == s.started[c := s'.started[c]] && s'.runs == s.runs[c := s'.runs[c]]
            && (s'.started[c] == Taken <==> !a.Error?)
            && (s'.started[c] == Rejected <==> a.Error? && Definite(a.e))
            && (s'.started[c] == Unclear <==> a.Error? && !Definite(a.e))
            && s'.runs[c] == match a
                             case Receipt(pid) => if pid == "" then Unknown(0) else Accepting(0, pid)
                             case NoReceipt => Unknown(0)
                             case Error(e) => if !Definite(e) then Unknown(0) else Refused(Temporary(e.code))
  {
    if a.Error? {
      UnknownUnlessDefinite(a.e);
      if Definite(a.e) { RetryableIfTemporary(a.e); }
    }
  }

  /** What a step that is not the provider's answer to `c` leaves alone. */
  ghost predicate Unanswered(s: State, s': State, c: Claim) {
    && (c in s.runs ==> c in s'.runs)
    && (c in s'.runs && s'.runs[c] in {Minted, HasLease, Started} ==>
          c !in s.runs || s.runs[c] in {Minted, HasLease, Started})
    && (c in s.started ==> c in s'.started && s'.started[c] == s.started[c])
    && (c !in s.started && c in s'.started ==> s'.started[c] == Unsent)
  }

  lemma DoIsUnanswered(s: State, q: Stmt, n: nat, c: Claim)
    requires q == StartSend(c) ==> c !in s.started
    ensures Unanswered(s, Do(s, q, n), c) && Do(s, q, n).runs == s.runs
  {}

  lemma IssuingIsUnanswered(s: State, d: Claim, q: Stmt, reply: Reply, c: Claim)
    requires Inv(s) && d in s.runs && MayIssue(d, s.runs[d], q)
    ensures Unanswered(s, Issuing(s, d, q, reply), c)
  {
    assert PcOk(s, d);
    DoIsUnanswered(s, q, 0, c);
    match reply
    case Answered =>
      MovingIsUnanswered(s, Do(s, q, 0), d, Answering(s.runs[d], q, Guard(s.row, q, s.now)), c);
    case Lost(landed, giveUp) =>
      var next := if landed then Do(s, q, 0) else s.(late := s.late + {q});
      MovingIsUnanswered(s, next, d, Losing(s.runs[d], giveUp), c);
  }

  /** A run moves on, and nothing before the submission comes after it. */
  lemma MovingIsUnanswered(s: State, next: State, d: Claim, pc: Pc, c: Claim)
    requires Unanswered(s, next, c) && next.runs == s.runs && d in s.runs
    requires pc in {Minted, HasLease, Started} ==> s.runs[d] in {Minted, HasLease, Started}
    ensures Unanswered(s, next.(runs := s.runs[d := pc]), c)
  {}

  lemma OtherStepIsUnanswered(s: State, l: Label, c: Claim)
    requires Inv(s) && Enabled(s, l) && !(l.Provider? && l.c == c)
    ensures Unanswered(s, Apply(s, l), c)
  {
    match l
    case Issue(d, q, reply) => IssuingIsUnanswered(s, d, q, reply, c);
    case Lands(q) =>
      assert LateOk(s, q);
      DoIsUnanswered(s.(late := s.late - {q}), q, 0, c);
    case Env(q, n) => DoIsUnanswered(s.(used := if q.PrepareReplay? then s.used + {q.token} else s.used), q, n, c);
    case Provider(d, a) => HearingBooks(s, d, a);
    case Mint(_) =>
    case Crash(_) =>
    case Tick(_) =>
  }

  lemma UnansweredKeepsBooked(s: State, s': State, ls: seq<Label>, k: nat, n: nat, c: Claim)
    requires k < |ls| && n == k + 1 && BookedOk(s, ls, k, c) && Unanswered(s, s', c)
    requires !(ls[k].Provider? && ls[k].c == c)
    ensures BookedOk(s', ls, n, c)
  {
    forall a ensures Heard(ls, n, c, a) <==> Heard(ls, k, c, a) {
      OneMoreAnswer(ls, k, c, a);
    }
    if c in s.started && s.started[c] != Unsent {
      var a :| Heard(ls, k, c, a);
      assert Heard(ls, n, c, a);
    }
  }

  lemma AnswerKeepsBooked(s: State, ls: seq<Label>, k: nat, c: Claim, a: Answer)
    requires Inv(s) && k < |ls| && ls[k] == Provider(c, a) && Enabled(s, ls[k]) && BookedOk(s, ls, k, c)
    ensures BookedOk(Hearing(s, c, a), ls, k + 1, c)
  {
    forall b ensures Heard(ls, k + 1, c, b) <==> Heard(ls, k, c, b) || ls[k] == Provider(c, b) {
      OneMoreAnswer(ls, k, c, b);
    }
    HearingBooks(s, c, a);
  }

  lemma StepKeepsBooked(s: State, ls: seq<Label>, k: nat, c: Claim)
    requires Inv(s) && k < |ls| && Enabled(s, ls[k]) && BookedOk(s, ls, k, c)
    ensures BookedOk(Apply(s, ls[k]), ls, k + 1, c)
  {
    if ls[k].Provider? && ls[k].c == c {
      AnswerKeepsBooked(s, ls, k, c, ls[k].answer);
    } else {
      OtherStepIsUnanswered(s, ls[k], c);
      UnansweredKeepsBooked(s, Apply(s, ls[k]), ls, k, k + 1, c);
    }
  }

  lemma {:induction false} BookedHolds(ss: seq<State>, ls: seq<Label>, k: nat, c: Claim)
    requires IsTrace(ss, ls) && k < |ss|
    ensures BookedOk(ss[k], ls, k, c)
  {
    if k > 0 {
      BookedHolds(ss, ls, k - 1, c);
      InvHolds(ss, ls, k - 1);
      StepKeepsBooked(ss[k - 1], ls, k - 1, c);
    }
  }

  /** In every run an attempt counts as rejected if and only if the provider answered it with a
      definite rejection; as taken if and only if the call succeeded; and as unclear if and only
      if it ended in any other error: cancelled, timed out, no answer from the provider, a fault
      of the server, or a code that does not say that the message was not taken. */
  lemma BookedByItsAnswer(ss: seq<State>, ls: seq<Label>, k: nat, c: Claim)
    requires IsTrace(ss, ls) && k < |ss| && c in ss[k].started
    ensures ss[k].started[c] == Rejected <==> exists e :: Heard(ls, k, c, Error(e)) && Definite(e)
    ensures ss[k].started[c] == Unclear <==> exists e :: Heard(ls, k, c, Error(e)) && !Definite(e)
    ensures ss[k].started[c] == Taken <==> exists a :: Heard(ls, k, c, a) && !a.Error?
  {
    BookedHolds(ss, ls, k, c);
    var o := ss[k].started[c];
    if o != Unsent {
      var a :| Heard(ls, k, c, a);
      if a.Error? { assert Heard(ls, k, c, Error(a.e)); }
    }
  }

  /** What the answer makes the run do: a definite rejection goes back to the queue if it is
      temporary and fails for good if not; every other error, and a success without a receipt,
      goes to review; a receipt is persisted. */
  lemma AnswerDecidesTheRun(ss: seq<State>, ls: seq<Label>, k: nat, c: Claim, a: Answer)
    requires IsTrace(ss, ls) && k < |ls| && ls[k] == Provider(c, a)
    ensures c in ss[k + 1].runs
    ensures a.Receipt? && a.pid != "" ==> ss[k + 1].runs[c] == Accepting(0, a.pid)
    ensures (a.Receipt? && a.pid == "") || a.NoReceipt? ==> ss[k + 1].runs[c] == Unknown(0)
    ensures a.Error? && !Definite(a.e) ==> ss[k + 1].runs[c] == Unknown(0)
    ensures a.Error? && Definite(a.e) && Temporary(a.e.code) ==> MayIssue(c, ss[k + 1].runs[c], MarkRetryable(c))
    ensures a.Error? && Definite(a.e) && !Temporary(a.e.code) ==> MayIssue(c, ss[k + 1].runs[c], FinalizeFailed(c))
  {
    HearingBooks(ss[k], c, a);
  }
}
