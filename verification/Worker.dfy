/** One worker loop as the program writes it (internal/worker/email_worker.go:42-155), each call a
    step of the two-store machine, with other loops and everyone else at work between its calls;
    what holds of every run therefore holds of the loop. */
module Worker {
  import opened EmailDomain
  import opened EmailRows
  import opened Queue
  import opened Receipts
  import opened NoLoss
  import SendRun

  /** What sending came to. `Unclear` and a `Taken` whose acceptance cannot be stored go to review. */
  datatype Sent = Taken(pid: string) | Unclear | RefusedForNow | RefusedForGood

  /** How a queue call ends: its effect may take place although its answer is lost. */
  datatype CallReply = CallReply(landed: bool, heard: bool)

  /** What one iteration does not decide itself. `others` act before each of its steps. */
  datatype World = World(
    token: string, lease: int, taken: bool, reading: Reading, policy: SendRun.Policy, sent: Sent, c: Claim,
    claimReply: Reply, startReply: Reply, closeReply: Reply, deadReply: Reply,
    tries: nat -> Reply, giveUp: nat -> bool,
    settle: CallReply, settleAgain: CallReply, others: nat -> seq<Label>)

  /** No email whose exposing steps found what they need has been lost. */
  ghost predicate NothingLost(ss: seq<State>, ls: seq<Label>)
    requires IsTrace(ss, ls)
  {
    forall id | GuardedRun(ss, ls, id) :: !IsLost(ss[|ls|], id)
  }

  /** Every statement is answered and nobody else acts. */
  ghost predicate Quiet(w: World) {
    && w.claimReply.Answered? && w.startReply.Answered? && w.closeReply.Answered?
    && (forall t :: w.tries(t) == Answered) && (forall i :: w.others(i) == [])
  }

  predicate RowIs(s: State, id: string, status: Status, state: AttemptState) {
    id in s.rows && s.rows[id].status == status && s.rows[id].state == state
  }

  /** The send of `c` is under way, under the lease it was started with. */
  predicate Underway(s: State, id: string, c: Claim) {
    RowIs(s, id, Sending, SendStarted) && Owns(s.rows[id], c) && s.rows[id].lease == Some(c.startLease)
  }

  predicate Leases(s: State, id: string, c: Claim) {
    RowIs(s, id, Sending, Leased) && Owns(s.rows[id], c)
  }

  /** What a message under way comes to: the row, and the queue call that is due. */
  predicate SentEnding(s: State, id: string, w: World, phase: Phase) {
    match w.sent
    case RefusedForNow => RowIs(s, id, Queued, NoAttempt) && phase == ToRequeue(true)
    case RefusedForGood => RowIs(s, id, Failed, FailedTerminal) && phase == ToAck
    case Unclear => RowIs(s, id, Ambiguous, Unresolved) && phase == ToAck
    case Taken(_) =>
      phase == ToAck
      && if s.now <= w.c.startLease then RowIs(s, id, Status.Sent, Accepted) else RowIs(s, id, Ambiguous, Unresolved)
  }

  predicate ClaimEnding(s: State, id: string, w: World, phase: Phase) {
    match w.policy
    case Unavailable => RowIs(s, id, Queued, NoAttempt) && phase == ToRequeue(true)
    case Suppressed => RowIs(s, id, Failed, FailedTerminal) && phase == ToAck
    case Clear => SentEnding(s, id, w, phase)
  }

  predicate OfLoop(l: Label, k: nat) {
    match l
    case Takes(m, _, _, _) => m == k
    case Loads(m, _) => m == k
    case Writes(m, _, _, _) => m == k
    case Settles(m, _, _) => m == k
    case RecoversRows(m) => m == k
    case Lists(m, _) => m == k
    case Reenqueues(m, _, _) => m == k
    case RecoversQueue(m) => m == k
    case PromotesDue(m, _) => m == k
    case Crashes(m) => m == k
    case _ => false
  }

  /** Steps of others leave the loop's position alone, and draw tokens of their own. */
  lemma OthersKeepPosition(s: State, l: Label, k: nat)
    requires Enabled(s, l) && !OfLoop(l, k)
    ensures At(Apply(s, l), k) == At(s, k)
  {}

  lemma AcceptingUnderway(s: State, id: string, c: Claim, q: Stmt)
    requires Underway(s, id, c) && q.FinalizeAccepted? && q.c == c
    ensures Hits(s, id, q) <==> s.now <= c.startLease
    ensures Hits(s, id, q) ==> Exec(s.rows[id], q, s.now).status == Status.Sent
    ensures Hits(s, id, q) ==> Exec(s.rows[id], q, s.now).state == Accepted
    ensures !Hits(s, id, q) ==> Exec(s.rows[id], q, s.now) == s.rows[id]
  {}

  lemma NothingIsLost(ss: seq<State>, ls: seq<Label>)
    requires IsTrace(ss, ls)
    ensures NothingLost(ss, ls)
  {
    forall id | GuardedRun(ss, ls, id) ensures !IsLost(ss[|ls|], id) {
      NoQueuedEmailIsLost(ss, ls, id, |ls|);
    }
  }

  class Loop {
    const k: nat
    var s: State
    ghost var ss: seq<State>
    ghost var ls: seq<Label>

    ghost predicate Valid() reads this {
      IsTrace(ss, ls) && s == ss[|ls|]
    }

    constructor (k: nat)
      ensures Valid() && this.k == k && Pos().Idle?
    {
      this.k := k;
      s, ss, ls := Init(), [Init()], [];
    }

    function Pos(): Pc reads this {
      At(s, k)
    }

    method Perform(l: Label)
      requires Valid() && Enabled(s, l)
      modifies this
      ensures Valid() && s == Apply(old(s), l) && ls == old(ls) + [l]
    {
      s := Apply(s, l);
      ss, ls := ss + [s], ls + [l];
    }

    /** The other loops, the API, operators, callbacks and time. */
    method Meanwhile(labels: seq<Label>)
      requires Valid()
      modifies this
      ensures Valid() && Pos() == old(Pos()) && old(ls) <= ls
      ensures labels == [] ==> s == old(s)
    {
      var i := 0;
      while i < |labels|
        invariant 0 <= i <= |labels| && Valid() && Pos() == old(Pos()) && old(ls) <= ls
        invariant i == 0 ==> s == old(s)
      {
        var l := labels[i];
        if Enabled(s, l) && !OfLoop(l, k) {
          OthersKeepPosition(s, l, k);
          Perform(l);
        }
        i := i + 1;
      }
    }

    method Write(w: Stmt, reply: Reply, more: bool)
      requires Valid() && Pos().Holding? && MayWrite(Pos().phase, w) && !w.DeadLetterFailed?
      modifies this
      ensures Valid() && old(ls) <= ls
      ensures Pos() == old(Pos()).(phase := AfterWrite(old(Pos()).phase, w, Hits(old(s), old(Pos()).id, w), reply,
          more))
      ensures s.q == old(s).q && s.now == old(s).now
      ensures reply.Answered? && old(Pos()).id in old(s).rows ==>
                s.rows == old(s).rows[Pos().id := Exec(old(s).rows[Pos().id], w, s.now)]
    {
      Perform(Writes(k, w, reply, more));
    }

    /** `ProcessFromQueue`, up to the queue call its answer asks for. */
    method ProcessFromQueue(w: World)
      requires Valid() && Pos().Holding? && Pos().phase.Fresh?
      modifies this
      ensures Valid() && old(ls) <= ls && MaySettle(Pos())
      ensures var id, rows := old(Pos()).id, old(s).rows;
              && (w.reading == ReadError || id !in rows ==> Pos().phase == ToRequeue(true) && s.rows == rows)
              && (w.reading != ReadError && id in rows && rows[id].status != Queued ==>
                    Pos().phase == ToAck && s.rows == rows)
              && (w.reading.NotDue? && id in rows && rows[id].status == Queued ==>
                    Pos().phase == ToReschedule(w.reading.at) && s.rows == rows)
              && (w.reading == Ready && id in rows && rows[id].status == Queued ==>
                    && (w.claimReply.Lost? ==> Pos().phase == ToRequeue(true))
                    && (Quiet(w) ==> ClaimEnding(s, id, w, Pos().phase)))
    {
      BaseHolds(ss, ls, |ls|);
      Perform(Loads(k, w.reading));
      if !Pos().phase.Claiming? { return; }
      Meanwhile(w.others(1));
      Write(ClaimAttempt(w.c), w.claimReply, false);
      if Pos().phase.HasLease? { Attempt(w); }
    }

    method Attempt(w: World)
      requires Valid() && Pos().Holding? && Pos().phase == HasLease(w.c)
      modifies this
      ensures Valid() && old(ls) <= ls && MaySettle(Pos())
      ensures Quiet(w) && Leases(old(s), old(Pos()).id, w.c) ==> ClaimEnding(s, old(Pos()).id, w, Pos().phase)
    {
      Meanwhile(w.others(2));
      if !w.policy.Clear? {
        Write(if w.policy.Unavailable? then MarkRetryable(w.c) else FinalizeFailed(w.c), w.closeReply, false);
        return;
      }
      Write(StartSend(w.c), w.startReply, false);
      if !Pos().phase.Started? { return; }
      Meanwhile(w.others(3));
      Submit(w);
    }

    method Submit(w: World)
      requires Valid() && Pos().Holding? && Pos().phase == Started(w.c)
      modifies this
      ensures Valid() && old(ls) <= ls && MaySettle(Pos())
      ensures Quiet(w) && Underway(old(s), old(Pos()).id, w.c) ==> SentEnding(s, old(Pos()).id, w, Pos().phase)
    {
      match w.sent
      case RefusedForNow => Write(MarkRetryable(w.c), w.closeReply, false);
      case RefusedForGood => Write(FinalizeFailed(w.c), w.closeReply, false);
      case Unclear => SendToReview(w);
      case Taken(pid) => PersistAcceptance(w, pid);
    }

    method SendToReview(w: World)
      requires Valid() && Pos().Holding? && Pos().phase == Started(w.c)
      modifies this
      ensures Valid() && old(ls) <= ls && MaySettle(Pos()) && Pos().phase == ToAck
      ensures Quiet(w) && Underway(old(s), old(Pos()).id, w.c) ==> RowIs(s, old(Pos()).id, Ambiguous, Unresolved)
    {
      var t, stop := 0, false;
      while t < 3 && !stop
        invariant t <= 3 && Valid() && Pos().Holding? && old(ls) <= ls && Pos().id == old(Pos()).id
        invariant Pos().phase == if stop || t == 3 then ToAck else Started(w.c)
        invariant Quiet(w) && Underway(old(s), Pos().id, w.c) ==>
                    if stop then RowIs(s, Pos().id, Ambiguous, Unresolved) else t == 0 && s == old(s)
        decreases 3 - t, !stop
      {
        Meanwhile(w.others(4 + t));
        stop := w.tries(t).Answered? || w.giveUp(t);
        Write(FinalizeAmbiguous(w.c, t), w.tries(t), !stop && t < 2);
        t := t + 1;
      }
    }

    method PersistAcceptance(w: World, pid: string)
      requires Valid() && Pos().Holding? && Pos().phase == Started(w.c)
      modifies this
      ensures Valid() && old(ls) <= ls && MaySettle(Pos()) && Pos().phase == ToAck
      ensures Quiet(w) && Underway(old(s), old(Pos()).id, w.c) ==>
                s.now == old(s).now
                && if s.now <= w.c.startLease then RowIs(s, old(Pos()).id, Status.Sent, Accepted)
                   else RowIs(s, old(Pos()).id, Ambiguous, Unresolved)
    {
      var persisted := TryToAccept(w, pid);
      if persisted { return; }
      Meanwhile(w.others(7));
      Write(FinalizeAmbiguous(w.c, 0), w.tries(3), false);
    }

    /** Up to three tries of the accepting transaction. */
    method TryToAccept(w: World, pid: string) returns (persisted: bool)
      requires Valid() && Pos().Holding? && Pos().phase == Started(w.c)
      modifies this
      ensures Valid() && old(ls) <= ls && Pos().Holding? && Pos().id == old(Pos()).id
      ensures Pos().phase == if persisted then ToAck else Started(w.c)
      ensures Quiet(w) && Underway(old(s), Pos().id, w.c) ==>
                && s.now == old(s).now && (persisted <==> s.now <= w.c.startLease)
                && if persisted then RowIs(s, Pos().id, Status.Sent, Accepted) else Underway(s, Pos().id, w.c)
    {
      var t, stop := 0, false;
      while t < 3 && !stop
        invariant t <= 3 && Valid() && Pos().Holding? && old(ls) <= ls && Pos().phase == Started(w.c)
        invariant Pos().id == old(Pos()).id
        invariant Quiet(w) && Underway(old(s), Pos().id, w.c) ==>
                    && s.now == old(s).now && Underway(s, Pos().id, w.c)
                    && (if stop then w.c.startLease < s.now else t == 0)
        decreases 3 - t, !stop
      {
        Meanwhile(w.others(4 + t));
        var q := FinalizeAccepted(w.c, pid, t);
        if Underway(s, Pos().id, w.c) { AcceptingUnderway(s, Pos().id, w.c, q); }
        persisted := w.tries(t).Answered? && Hits(s, Pos().id, q);
        Write(q, w.tries(t), !persisted);
        if persisted { return; }
        stop := w.tries(t).Answered? || w.giveUp(t);
        t := t + 1;
      }
      persisted := false;
    }

    method Take(w: World)
      requires Valid() && Pos().Idle? && Sep !in w.token && w.token !in s.used
      modifies this
      ensures Valid() && old(ls) < ls
      ensures Pos().Idle? || (w.taken && Pos().Holding? && Pos().phase.Fresh?)
    {
      Perform(Takes(k, w.token, w.lease, w.taken));
    }

    /** The queue call of the outcome; `again` asks for the next one. */
    method Settle(reply: CallReply) returns (again: bool)
      requires Valid() && MaySettle(Pos())
      modifies this
      ensures Valid() && old(ls) < ls && (again <==> Pos().Holding?) && (!again ==> Pos().Idle?)
      ensures again ==> Pos().phase == if old(Pos()).phase.ToReschedule? then ToRequeue(false) else ToDeadLetter
      ensures old(Pos()).phase.ToReschedule? ==> (again <==> !reply.heard)
      ensures old(Pos()).phase.ToAck? ==> !again
      ensures s.rows == old(s).rows && (!reply.landed ==> s.q == old(s).q)
      ensures reply.landed ==>
                match old(Pos()).phase
                case ToAck => s.q == Ack(old(s).q, old(Pos()).token, old(Pos()).id)
                case ToRequeue(count) => s.q == Requeue(old(s).q, old(Pos()).token, old(Pos()).id, s.now, count)
                case ToReschedule(at) => s.q == RescheduleReceipt(old(s).q, old(Pos()).token, old(Pos()).id, at)
                case _ => false
      ensures old(Pos()).phase.ToRequeue? ==>
                (again <==> reply.landed && reply.heard && Dies(old(s).q, CallOf(old(Pos()))))
    {
      Perform(Settles(k, reply.landed, reply.heard));
      again := Pos().Holding?;
    }

    method MarkFailedFromQueue(reply: Reply)
      requires Valid() && Pos().Holding? && Pos().phase == ToDeadLetter
      modifies this
      ensures Valid() && Pos().Idle? && old(ls) < ls
    {
      Perform(Writes(k, DeadLetterFailed, reply, false));
    }

    /** One iteration. Whatever fails in it, and whatever happens around it, the loop comes back
        idle with no email lost; it reports itself ready if every call it made was answered. */
    method ProcessNext(w: World) returns (ready: bool)
      requires Valid() && Pos().Idle? && Sep !in w.token && w.token !in s.used
      modifies this
      ensures Valid() && Pos().Idle? && old(ls) < ls && NothingLost(ss, ls)
      ensures w.taken && w.settle.heard && w.settleAgain.heard && w.deadReply.Answered? ==> ready
      ensures ready ==> w.taken
    {
      Take(w);
      ready := w.taken;
      if Pos().Holding? {
        ready := Conclude(w);
      }
      NothingIsLost(ss, ls);
    }

    method Conclude(w: World) returns (ready: bool)
      requires Valid() && Pos().Holding? && Pos().phase.Fresh?
      modifies this
      ensures Valid() && Pos().Idle? && old(ls) < ls
      ensures w.settle.heard && w.settleAgain.heard && w.deadReply.Answered? ==> ready
    {
      Meanwhile(w.others(0));
      ProcessFromQueue(w);
      Meanwhile(w.others(8));
      var rescheduling := Pos().phase.ToReschedule?;
      var again := Settle(w.settle);
      ready := w.settle.heard;
      if rescheduling && again {
        Meanwhile(w.others(9));
        again := Settle(w.settleAgain);
        ready := w.settleAgain.heard;
      }
      if again {
        Meanwhile(w.others(10));
        MarkFailedFromQueue(w.deadReply);
        ready := w.deadReply.Answered?;
      }
    }

    /** One listed id: the queue write, and if it was answered the row write. */
    method ReenqueueOne(write: CallReply, mark: bool, before: seq<Label>, between: seq<Label>)
      requires Valid() && Pos().Reenqueuing? && Pos().ids != []
      modifies this
      ensures Valid() && old(ls) <= ls && Pos() == Reenqueuing(old(Pos()).ids[1..])
    {
      Meanwhile(before);
      Perform(Reenqueues(k, write.landed, write.heard));
      Meanwhile(between);
      if Pos().Marking? { Perform(Reenqueues(k, mark, true)); }
    }

    method RecoverExpired() returns (ids: seq<string>)
      requires Valid() && Pos().Idle?
      modifies this
      ensures Valid() && old(ls) < ls && Pos() == Reenqueuing(ids) && |ids| <= 5000
    {
      Perform(RecoversRows(k));
      ids := ListQueueRecoveryPending(5000);
      Perform(Lists(k, ids));
    }

    method RecoverQueue()
      requires Valid() && Pos() == Reenqueuing([])
      modifies this
      ensures Valid() && Pos().Idle? && old(ls) < ls
    {
      Perform(Reenqueues(k, true, true));
      Perform(RecoversQueue(k));
    }

    /** The half-minute maintenance: `RecoverSending` over the ids listed with their flag set, then
        the queue's own recovery. A flag that could not be cleared waits for the next round. */
    method Maintain(writes: nat -> CallReply, marks: nat -> bool, others: nat -> seq<Label>)
      requires Valid() && Pos().Idle?
      modifies this
      ensures Valid() && Pos().Idle? && old(ls) < ls && NothingLost(ss, ls)
    {
      var ids := RecoverExpired();
      var i := 0;
      while i < |ids|
        invariant 0 <= i <= |ids| && Valid() && old(ls) < ls && Pos() == Reenqueuing(ids[i..])
      {
        ReenqueueOne(writes(i), marks(i), others(2 * i), others(2 * i + 1));
        i := i + 1;
      }
      RecoverQueue();
      NothingIsLost(ss, ls);
    }

    method ListQueueRecoveryPending(limit: int) returns (ids: seq<string>)
      ensures |ids| <= Clamped(limit)
      ensures forall id | id in ids :: NeedsMark(s, id)
      ensures |ids| < Clamped(limit) ==> forall id | id in s.rows && NeedsMark(s, id) :: id in ids
    {
      ids := [];
      var most := Clamped(limit);
      var rest := set id | id in s.rows && NeedsMark(s, id);
      while rest != {} && |ids| < most
        invariant |ids| <= most
        invariant forall id | id in s.rows && NeedsMark(s, id) :: id in rest || id in ids
        invariant forall id | id in rest || id in ids :: NeedsMark(s, id)
        decreases |rest|
      {
        var id :| id in rest;
        rest := rest - {id};
        ids := ids + [id];
      }
    }
  }

  function Clamped(limit: int): nat {
    if limit < 1 then 1000 else if limit > 5000 then 5000 else limit
  }
}
