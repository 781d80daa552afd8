/** One call of `processFromQueueDurable`, statement by statement, while anyone else may act
    between its statements (internal/service/email_service.go:522-717), and what the worker
    loop does with its answer (internal/worker/email_worker.go:113-155). */
module SendRun {
  import opened EmailDomain
  import opened EmailRows
  import opened SendProtocol
  import Rejections

  datatype Result =
    | Submitted              // no error
    | NotQueued
    | NotDue(at: int)
    | Retryable
    | DeliveryFailed
    | OutcomeAmbiguous
    | AcceptedUnresolved
    | Failure                // any other error

  datatype QueueCall = Acks | Reschedules(at: int) | Requeues

  function CallFor(r: Result): QueueCall {
    match r
    case Submitted | NotQueued | DeliveryFailed | OutcomeAmbiguous | AcceptedUnresolved => Acks
    case NotDue(at) => Reschedules(at)
    case Retryable | Failure => Requeues
  }

  datatype Policy = Clear | Suppressed | Unavailable

  datatype Heard = Hit | Miss | Err

  /** Everything the call does not decide itself: what it reads, the replies to its statements
      in the order they are sent, the provider's answer, and what others do before each step. */
  datatype World = World(
    readFails: bool, notBefore: Option<int>, policy: Policy,
    claimReply: Reply, startReply: Reply, closeReply: Reply, answer: Answer,
    replies: nat -> Reply, fallbackReply: Reply, others: nat -> seq<Label>)

  /** Every statement is answered and nobody else touches the row. */
  ghost predicate Undisturbed(w: World) {
    && w.claimReply.Answered? && w.startReply.Answered? && w.closeReply.Answered? && w.fallbackReply.Answered?
    && (forall t :: w.replies(t) == Answered) && (forall k :: w.others(k) == [])
  }

  /** `row` is `was` with its attempt `c` brought to an end: nothing is leased any more. */
  predicate Closed(was: Row, c: Claim, status: Status, state: AttemptState, fence: Option<nat>, row: Row) {
    row == was.(status := status, state := state, attemptId := Some(c.attempt), fence := fence, lease := None,
                sendingAt := None, recovery := false)
  }

  /** `row` is `was` back in the queue, without an attempt. */
  predicate HandedBack(was: Row, row: Row) {
    row == was.(status := Queued, state := NoAttempt, attemptId := None, fence := None, lease := None,
                sendingAt := None, recovery := false)
  }

  predicate HasReceipt(a: Answer) {
    a.Receipt? && a.pid != ""
  }

  predicate NoWord(a: Answer) {
    (a.Receipt? && a.pid == "") || a.NoReceipt? || (a.Error? && !Rejections.Definite(a.e))
  }

  predicate TurnedDown(a: Answer, temporary: bool) {
    a.Error? && Rejections.Definite(a.e) && Rejections.Temporary(a.e.code) == temporary
  }

  predicate IsEarly(w: World, now: int) {
    w.notBefore.Some? && now < w.notBefore.value
  }

  predicate Leases(r: Row, c: Claim) {
    Owns(r, c) && r.status == Sending && r.state == Leased
  }

  /** The send of `c` is under way, under the lease it was started with. */
  predicate Underway(s: State, c: Claim) {
    Owns(s.row, c) && s.row.status == Sending && s.row.state == SendStarted && s.row.lease == Some(c.startLease)
  }

  /** How a submission that nobody disturbs ends, by the provider's answer. */
  predicate SentEnding(was: Row, c: Claim, now: int, a: Answer, r: Result, row: Row) {
    && (HasReceipt(a) && now <= c.startLease ==>
          r == Submitted && Closed(was.(providerId := Some(a.pid)), c, Sent, Accepted, Some(c.fence), row))
    && (HasReceipt(a) && c.startLease < now ==>
          r == AcceptedUnresolved && Closed(was, c, Ambiguous, Unresolved, None, row))
    && (NoWord(a) ==> r == OutcomeAmbiguous && Closed(was, c, Ambiguous, Unresolved, None, row))
    && (TurnedDown(a, true) ==> r == Retryable && HandedBack(was, row))
    && (TurnedDown(a, false) ==> r == DeliveryFailed && Closed(was, c, Failed, FailedTerminal, None, row))
  }

  /** How a claimed attempt that nobody disturbs ends, by the recipient check. */
  predicate ClaimEnding(was: Row, c: Claim, now: int, w: World, r: Result, row: Row) {
    && (w.policy == Unavailable ==> r == Retryable && HandedBack(was, row))
    && (w.policy == Suppressed ==> r == DeliveryFailed && Closed(was, c, Failed, FailedTerminal, None, row))
    && (w.policy == Clear ==> SentEnding(was, c, now, w.answer, r, row))
  }

  /** What an answer says about its causes, whatever everyone else does in between. */
  predicate Explained(w: World, r: Result) {
    match r
    case Submitted | AcceptedUnresolved => w.policy == Clear && HasReceipt(w.answer)
    case OutcomeAmbiguous => w.policy == Clear && NoWord(w.answer)
    case Retryable => w.policy == Unavailable || (w.policy == Clear && TurnedDown(w.answer, true))
    case DeliveryFailed => w.policy == Suppressed || (w.policy == Clear && TurnedDown(w.answer, false))
    case Failure => w.readFails || w.claimReply.Lost? || w.startReply.Lost? || w.closeReply.Lost?
    case NotQueued | NotDue(_) => true
  }

  predicate OfRun(l: Label, c: Claim) {
    || (l.Issue? && l.c == c) || (l.Provider? && l.c == c) || (l.Crash? && l.c == c) || (l.Mint? && l.c == c)
  }

  /** The provider holds the message, or may hold it. */
  predicate MayHaveSubmitted(s: State, c: Claim) {
    c in s.started && s.started[c] in {Taken, Unclear}
  }

  /** What a step of anyone else leaves alone, as far as the run of `c` can tell. */
  ghost predicate Unseen(s: State, s': State, c: Claim) {
    && c in s.runs && c in s'.runs && s'.runs[c] == s.runs[c]
    && (c in s.started <==> c in s'.started) && (c in s.started ==> s'.started[c] == s.started[c])
    && s.accepted <= s'.accepted
  }

  lemma DoIsUnseen(s: State, q: Stmt, n: nat, c: Claim)
    requires c in s.runs && q != StartSend(c)
    ensures Unseen(s, Do(s, q, n), c)
  {}

  lemma IssuingIsUnseen(s: State, d: Claim, q: Stmt, reply: Reply, c: Claim)
    requires c in s.runs && d in s.runs && d != c && MayIssue(d, s.runs[d], q)
    ensures Unseen(s, Issuing(s, d, q, reply), c)
  {
    DoIsUnseen(s, q, 0, c);
  }

  lemma OthersAreUnseen(s: State, l: Label, c: Claim)
    requires RunsInv(s) && Enabled(s, l) && !OfRun(l, c) && c in s.runs && s.runs[c] != Finished
    ensures Unseen(s, Apply(s, l), c)
  {
    match l
    case Lands(q) =>
      NothingDecisiveInFlight(s, c);
      DoIsUnseen(s.(late := s.late - {q}), q, 0, c);
    case Issue(d, q, reply) => IssuingIsUnseen(s, d, q, reply, c);
    case Env(q, n) => DoIsUnseen(s.(used := if q.PrepareReplay? then s.used + {q.token} else s.used), q, n, c);
    case Mint(d) => assert d != c;
    case Provider(d, _) => assert d != c;
    case Crash(d) => assert d != c;
    case Tick(_) =>
  }

  /** The run of `c` is over in both states, with the same answer to the question. */
  ghost predicate StillOver(s: State, s': State, c: Claim) {
    && c in s.runs && c in s'.runs && s.runs[c] == Finished == s'.runs[c]
    && (MayHaveSubmitted(s', c) <==> MayHaveSubmitted(s, c))
  }

  lemma DoIgnoresFinished(s: State, q: Stmt, n: nat, c: Claim)
    requires c in s.runs && s.runs[c] == Finished && (q == StartSend(c) ==> c !in s.started)
    ensures StillOver(s, Do(s, q, n), c)
  {}

  lemma IssuingIgnoresFinished(s: State, d: Claim, q: Stmt, reply: Reply, c: Claim)
    requires c in s.runs && s.runs[c] == Finished && d in s.runs && MayIssue(d, s.runs[d], q)
    ensures StillOver(s, Issuing(s, d, q, reply), c)
  {
    assert d != c && q != StartSend(c);
    DoIgnoresFinished(s, q, 0, c);
  }

  lemma HearingIgnoresFinished(s: State, d: Claim, a: Answer, c: Claim)
    requires c in s.runs && s.runs[c] == Finished && d in s.runs && d != c
    ensures StillOver(s, Hearing(s, d, a), c)
  {}

  lemma StepKeepsFinished(s: State, l: Label, c: Claim)
    requires IdsInv(s) && RunsInv(s) && Enabled(s, l) && c in s.runs && s.runs[c] == Finished
    ensures StillOver(s, Apply(s, l), c)
  {
    match l
    case Lands(q) =>
      assert LateOk(s, q);
      DoIgnoresFinished(s.(late := s.late - {q}), q, 0, c);
    case Issue(d, q, reply) => IssuingIgnoresFinished(s, d, q, reply, c);
    case Env(q, n) => DoIgnoresFinished(s.(used := if q.PrepareReplay? then s.used + {q.token} else s.used), q, n, c);
    case Mint(d) => assert d != c;
    case Provider(d, a) => HearingIgnoresFinished(s, d, a, c);
    case Crash(_) =>
    case Tick(_) =>
  }

  /** Whether a run that is over may have submitted is settled for good: nothing it left in
      flight, and nothing anyone does with the row, changes it. */
  lemma {:induction false} FinishedRunsStaySettled(ss: seq<State>, ls: seq<Label>, i: nat, j: nat, c: Claim)
    requires IsTrace(ss, ls) && i <= j < |ss| && c in ss[i].runs && ss[i].runs[c] == Finished
    ensures c in ss[j].runs && ss[j].runs[c] == Finished
    ensures MayHaveSubmitted(ss[j], c) <==> MayHaveSubmitted(ss[i], c)
    decreases j
  {
    if i < j {
      FinishedRunsStaySettled(ss, ls, i, j - 1, c);
      InvHolds(ss, ls, j - 1);
      StepKeepsFinished(ss[j - 1], ls[j - 1], c);
    }
  }

  /** The acceptance of a send under way takes effect exactly within its lease; the fallback to
      review takes effect in any case. */
  lemma AcceptingUnderway(s: State, c: Claim, pid: string, t: nat)
    requires Underway(s, c)
    ensures var q := FinalizeAccepted(c, pid, t);
            && (Guard(s.row, q, s.now) <==> s.now <= c.startLease)
            && if s.now <= c.startLease
               then Closed(s.row.(providerId := Some(pid)), c, Sent, Accepted, Some(c.fence), Exec(s.row, q, s.now))
               else Exec(s.row, q, s.now) == s.row
    ensures Closed(s.row, c, Ambiguous, Unresolved, None, Exec(s.row, FinalizeAmbiguous(c, t), s.now))
  {}

  lemma StepNeverStarts(s: State, l: Label, c: Claim)
    requires Inv(s) && Enabled(s, l) && c in s.runs && s.runs[c] == Finished
    requires c !in s.started && StartSend(c) !in s.late
    ensures c in Apply(s, l).runs && Apply(s, l).runs[c] == Finished
    ensures c !in Apply(s, l).started && StartSend(c) !in Apply(s, l).late
  {
    StepKeepsFinished(s, l, c);
    match l
    case Lands(q) => assert LateOk(s, q);
    case Issue(d, q, reply) => assert d != c && q != StartSend(c);
    case _ =>
  }

  /** A run that is over, not started and without a start in flight never submits anything. */
  lemma {:induction false} NeverStartedLater(ss: seq<State>, ls: seq<Label>, i: nat, j: nat, c: Claim)
    requires IsTrace(ss, ls) && i <= j < |ss| && c in ss[i].runs && ss[i].runs[c] == Finished
    requires c !in ss[i].started && StartSend(c) !in ss[i].late
    ensures c in ss[j].runs && ss[j].runs[c] == Finished
    ensures c !in ss[j].started && StartSend(c) !in ss[j].late
    decreases j
  {
    if i < j {
      NeverStartedLater(ss, ls, i, j - 1, c);
      InvHolds(ss, ls, j - 1);
      StepNeverStarts(ss[j - 1], ls[j - 1], c);
    }
  }

  lemma FreshPairsAreNew(ss: seq<State>, ls: seq<Label>, k: nat, c: Claim)
    requires IsTrace(ss, ls) && k < |ss| && Enabled(ss[k], Mint(c))
    ensures c !in ss[k].runs && c !in ss[k].started && StartSend(c) !in ss[k].late
    ensures ss[k].row.status == Queued ==> ss[k].row.state == NoAttempt
  {
    InvHolds(ss, ls, k);
  }

  class Email {
    var s: State
    ghost var ss: seq<State>
    ghost var ls: seq<Label>

    ghost predicate Valid() reads this {
      IsTrace(ss, ls) && s == ss[|ls|]
    }

    constructor (team: nat)
      ensures Valid() && s == Init(team)
    {
      s, ss, ls := Init(team), [Init(team)], [];
    }

    method Perform(l: Label)
      requires Valid() && Enabled(s, l)
      modifies this
      ensures Valid() && s == Apply(old(s), l) && ls == old(ls) + [l]
    {
      s := Apply(s, l);
      ss, ls := ss + [s], ls + [l];
    }

    /** Other workers, operators, callbacks and late statements get their turn. */
    method Meanwhile(c: Claim, labels: seq<Label>)
      requires Valid() && c in s.runs && s.runs[c] != Finished
      modifies this
      ensures Valid() && Unseen(old(s), s, c) && old(ls) <= ls
      ensures StartSend(c) !in s.late
      ensures labels == [] ==> s == old(s)
    {
      var i := 0;
      while i < |labels|
        invariant 0 <= i <= |labels| && Valid() && Unseen(old(s), s, c) && old(ls) <= ls
        invariant i == 0 ==> s == old(s)
      {
        if Enabled(s, labels[i]) && !OfRun(labels[i], c) {
          InvHolds(ss, ls, |ls|);
          OthersAreUnseen(s, labels[i], c);
          Perform(labels[i]);
        }
        i := i + 1;
      }
      InvHolds(ss, ls, |ls|);
      NothingDecisiveInFlight(s, c);
    }

    /** One statement of the run: `Err` if its answer is lost, else whether it matched. */
    method Ask(c: Claim, q: Stmt, reply: Reply) returns (a: Heard)
      requires Valid() && c in s.runs && MayIssue(c, s.runs[c], q)
      modifies this
      ensures Valid() && (a.Err? <==> reply.Lost?) && ls == old(ls) + [Issue(c, q, reply)]
      ensures c in s.runs && s.runs[c] == if reply.Lost? then Losing(old(s).runs[c], reply.giveUp)
                                          else Answering(old(s).runs[c], q, a.Hit?)
      ensures !q.StartSend? ==> s.started == old(s).started
      ensures q.StartSend? ==> s.started == old(s).started[c := Unsent] || (s.started == old(s).started && !a.Hit?)
      ensures s.late <= old(s).late + {q} && s.now == old(s).now
      ensures reply.Answered? ==> s.row == Exec(old(s).row, q, s.now) && (a.Hit? <==> Guard(old(s).row, q, s.now))
      ensures a.Hit? && q.FinalizeAccepted? ==> c in s.accepted
      ensures a.Hit? && q.FinalizeFailed? ==> FailedEvent(c) in s.events
    {
      var matched := Guard(s.row, q, s.now);
      Perform(Issue(c, q, reply));
      a := if reply.Lost? then Err else if matched then Hit else Miss;
    }

    /** `finalizeAmbiguousOutcome` */
    method SendToReview(c: Claim, w: World)
      requires Valid() && c in s.runs && s.runs[c] == Unknown(0) && MayHaveSubmitted(s, c)
      modifies this
      ensures Valid() && c in s.runs && s.runs[c] == Finished && MayHaveSubmitted(s, c)
      ensures Undisturbed(w) && Underway(old(s), c) ==> Closed(old(s).row, c, Ambiguous, Unresolved, None, s.row)
    {
      var t, stop := 0, false;
      while t < 3 && !stop
        invariant t <= 3 && Valid() && c in s.runs && MayHaveSubmitted(s, c)
        invariant s.runs[c] == if stop || t == 3 then Finished else Unknown(t)
        invariant Undisturbed(w) && Underway(old(s), c) ==>
                    if stop then Closed(old(s).row, c, Ambiguous, Unresolved, None, s.row) else t == 0 && s == old(s)
        decreases 3 - t, !stop
      {
        Meanwhile(c, w.others(4 + t));
        var a := Ask(c, FinalizeAmbiguous(c, t), w.replies(t));
        stop := !a.Err? || w.replies(t).giveUp;
        t := t + 1;
      }
    }

    /** Three tries to say that the provider took the message under `pid`. */
    method TryToAccept(c: Claim, pid: string, w: World) returns (done: bool)
      requires Valid() && c in s.runs && s.runs[c] == Accepting(0, pid) && MayHaveSubmitted(s, c)
      modifies this
      ensures Valid() && c in s.runs && MayHaveSubmitted(s, c)
      ensures s.runs[c] == if done then Finished else FallingBack
      ensures done ==> c in s.accepted
      ensures Undisturbed(w) && Underway(old(s), c) ==>
                && s.now == old(s).now && (done <==> s.now <= c.startLease)
                && if done then Closed(old(s).row.(providerId := Some(pid)), c, Sent, Accepted, Some(c.fence), s.row)
                   else s.row == old(s).row
    {
      var t, stop := 0, false;
      while t < 3 && !stop
        invariant t <= 3 && Valid() && c in s.runs && MayHaveSubmitted(s, c)
        invariant s.runs[c] == if stop || t == 3 then FallingBack else Accepting(t, pid)
        invariant Undisturbed(w) && Underway(old(s), c) ==>
                    s.row == old(s).row && s.now == old(s).now && (if stop then c.startLease < s.now else t == 0)
        decreases 3 - t, !stop
      {
        Meanwhile(c, w.others(4 + t));
        if Underway(s, c) { AcceptingUnderway(s, c, pid, t); }
        var a := Ask(c, FinalizeAccepted(c, pid, t), w.replies(t));
        if a.Hit? { return true; }
        stop := a.Miss? || w.replies(t).giveUp;
        t := t + 1;
      }
      done := false;
    }

    /** The provider took the message: say so, or else leave it to review. */
    method PersistAcceptance(c: Claim, pid: string, w: World) returns (r: Result)
      requires Valid() && c in s.runs && s.runs[c] == Accepting(0, pid) && MayHaveSubmitted(s, c)
      modifies this
      ensures Valid() && c in s.runs && s.runs[c] == Finished && MayHaveSubmitted(s, c)
      ensures r in {Submitted, AcceptedUnresolved} && (r.Submitted? ==> c in s.accepted)
      ensures Undisturbed(w) && Underway(old(s), c) && pid != "" ==>
                SentEnding(old(s).row, c, old(s).now, Receipt(pid), r, s.row)
    {
      var done := TryToAccept(c, pid, w);
      if done { return Submitted; }
      Meanwhile(c, w.others(7));
      if Underway(s, c) { AcceptingUnderway(s, c, pid, 0); }
      var a := Ask(c, FinalizeAmbiguous(c, 0), w.fallbackReply);
      r := AcceptedUnresolved;
    }

    /** Hands the row back, or closes it as failed, before anything was submitted. */
    method Close(c: Claim, q: Stmt, w: World) returns (r: Result)
      requires Valid() && c in s.runs && MayIssue(c, s.runs[c], q) && !MayHaveSubmitted(s, c)
      requires q == MarkRetryable(c) || q == FinalizeFailed(c)
      requires s.runs[c].HasLease? || s.runs[c].Refused?
      modifies this
      ensures Valid() && c in s.runs && s.runs[c] == Finished && !MayHaveSubmitted(s, c)
      ensures r in {NotQueued, Failure, if q.MarkRetryable? then Retryable else DeliveryFailed}
      ensures r.DeliveryFailed? ==> FailedEvent(c) in s.events
      ensures r.Failure? <==> w.closeReply.Lost?
      ensures c !in old(s).started ==> c !in s.started && StartSend(c) !in s.late
      ensures Undisturbed(w) && Owns(old(s).row, c) && old(s).row.status == Sending
              && old(s).row.state in {Leased, SendStarted} ==>
                if q.MarkRetryable? then r == Retryable && HandedBack(old(s).row, s.row)
                else r == DeliveryFailed && Closed(old(s).row, c, Failed, FailedTerminal, None, s.row)
    {
      Meanwhile(c, w.others(3));
      var a := Ask(c, q, w.closeReply);
      r := if a.Err? then Failure else if a.Miss? then NotQueued
           else if q.MarkRetryable? then Retryable else DeliveryFailed;
    }

    /** Whatever everyone else does in between, the answer tells the worker exactly whether the
        provider may hold the message: it is taken off the queue as delivered, unresolved or
        ambiguous if it may, and is offered to the queue again only if it does not and the run
        is over. */
    method ProcessFromQueueDurable(c: Claim, w: World) returns (r: Result)
      requires Valid() && Enabled(s, Mint(c))
      modifies this
      ensures Valid()
      ensures r in {Submitted, OutcomeAmbiguous, AcceptedUnresolved} <==> MayHaveSubmitted(s, c)
      ensures CallFor(r).Requeues? || CallFor(r).Reschedules? ==> !MayHaveSubmitted(s, c)
      ensures c in s.runs ==> s.runs[c] == Finished
      ensures r.Submitted? ==> c in s.accepted
      ensures r.DeliveryFailed? ==> FailedEvent(c) in s.events
      ensures w.policy != Clear ==> c !in s.started && StartSend(c) !in s.late
      ensures Explained(w, r)
      ensures w.readFails ==> r == Failure && s == old(s)
      ensures !w.readFails && old(s).row.status != Queued ==> r == NotQueued && s == old(s)
      ensures !w.readFails && old(s).row.status == Queued && IsEarly(w, old(s).now) ==>
                r == NotDue(w.notBefore.value) && s == old(s)
      ensures !w.readFails && old(s).row.status == Queued && !IsEarly(w, old(s).now) ==>
                && !r.NotDue? && (w.claimReply.Lost? ==> r == Failure)
                && (Undisturbed(w) ==> ClaimEnding(old(s).row, c, old(s).now, w, r, s.row))
    {
      FreshPairsAreNew(ss, ls, |ls|, c);
      if w.readFails { return Failure; }
      if s.row.status != Queued { return NotQueued; }
      if w.notBefore.Some? && s.now < w.notBefore.value { return NotDue(w.notBefore.value); }
      r := Attempt(c, w);
    }

    /** The claim, and what follows it. */
    method Attempt(c: Claim, w: World) returns (r: Result)
      requires Valid() && Enabled(s, Mint(c))
      modifies this
      ensures Valid() && c in s.runs && s.runs[c] == Finished
      ensures r in {Submitted, OutcomeAmbiguous, AcceptedUnresolved} <==> MayHaveSubmitted(s, c)
      ensures r.Submitted? ==> c in s.accepted
      ensures r.DeliveryFailed? ==> FailedEvent(c) in s.events
      ensures !r.NotDue?
      ensures w.policy != Clear ==> c !in s.started && StartSend(c) !in s.late
      ensures Explained(w, r) && (w.claimReply.Lost? ==> r == Failure)
      ensures Undisturbed(w) && old(s).row.status == Queued ==>
                ClaimEnding(old(s).row, c, old(s).now, w, r, s.row)
    {
      FreshPairsAreNew(ss, ls, |ls|, c);
      Perform(Mint(c));
      Meanwhile(c, w.others(0));
      var a := Ask(c, ClaimAttempt(c), w.claimReply);
      if a.Err? { return Failure; }
      if a.Miss? { return NotQueued; }
      r := AfterClaim(c, w);
    }

    /** The recipient check, the start and the submission. */
    method AfterClaim(c: Claim, w: World) returns (r: Result)
      requires Valid() && c in s.runs && s.runs[c] == HasLease && c !in s.started
      modifies this
      ensures Valid() && c in s.runs && s.runs[c] == Finished
      ensures r in {Submitted, OutcomeAmbiguous, AcceptedUnresolved} <==> MayHaveSubmitted(s, c)
      ensures r.Submitted? ==> c in s.accepted
      ensures r.DeliveryFailed? ==> FailedEvent(c) in s.events
      ensures !r.NotDue?
      ensures w.policy != Clear ==> c !in s.started && StartSend(c) !in s.late
      ensures Explained(w, r) && (w.policy == Clear && w.startReply.Lost? ==> r == Failure)
      ensures w.policy != Clear && w.closeReply.Lost? ==> r == Failure
      ensures Undisturbed(w) && Leases(old(s).row, c) ==> ClaimEnding(old(s).row, c, old(s).now, w, r, s.row)
    {
      if w.policy.Unavailable? { r := Close(c, MarkRetryable(c), w); return; }
      if w.policy.Suppressed? { r := Close(c, FinalizeFailed(c), w); return; }
      Meanwhile(c, w.others(1));
      var a := Ask(c, StartSend(c), w.startReply);
      if a.Err? { return Failure; }
      if a.Miss? { return NotQueued; }
      Meanwhile(c, w.others(2));
      r := Send(c, w);
    }

    method Send(c: Claim, w: World) returns (r: Result)
      requires Valid() && c in s.runs && s.runs[c] == Started && w.policy == Clear
      modifies this
      ensures Valid() && c in s.runs && s.runs[c] == Finished
      ensures r in {Submitted, OutcomeAmbiguous, AcceptedUnresolved} <==> MayHaveSubmitted(s, c)
      ensures r.Submitted? ==> c in s.accepted
      ensures r.DeliveryFailed? ==> FailedEvent(c) in s.events
      ensures !r.NotDue?
      ensures Explained(w, r)
      ensures w.answer.Error? && Rejections.Definite(w.answer.e) && w.closeReply.Lost? ==> r == Failure
      ensures Undisturbed(w) && Underway(old(s), c) ==> SentEnding(old(s).row, c, old(s).now, w.answer, r, s.row)
    {
      Rejections.HearingBooks(s, c, w.answer);
      Perform(Provider(c, w.answer));
      match s.runs[c] {
        case Unknown(_) =>
          SendToReview(c, w);
          r := OutcomeAmbiguous;
        case Accepting(_, pid) => r := PersistAcceptance(c, pid, w);
        case Refused(retryable) =>
          if retryable { r := Close(c, MarkRetryable(c), w); } else { r := Close(c, FinalizeFailed(c), w); }
      }
    }
  }
}
