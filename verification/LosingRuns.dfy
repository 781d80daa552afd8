/** Runs that lose an email: an interrupted replay, a retry after the queue took the receipt
    back, and a re-enqueue overtaken by two other loops. */
module LosingRuns {
  import opened EmailDomain
  import opened EmailRows
  import opened Receipts
  import opened Queue
  import opened NoLoss
  import opened NoLossExact

  /** One more step at the end of a run. */
  lemma Then(ss: seq<State>, ls: seq<Label>, l: Label) returns (ts: seq<State>, ms: seq<Label>)
    requires IsTrace(ss, ls) && Enabled(ss[|ls|], l)
    ensures IsTrace(ts, ms) && ms == ls + [l] && ts == ss + [Apply(ss[|ls|], l)]
  {
    ts, ms := ss + [Apply(ss[|ls|], l)], ls + [l];
  }

  /** The email is published and nothing else has happened. */
  ghost predicate JustPublished(s: State, id: string, team: nat) {
    && s.rows == map[id := NewRow(team)] && s.published == {id} && s.used == {} && s.loops == map[]
    && s.late == {} && s.now == 0
    && s.q == Enqueue(Empty, id)
  }

  lemma Publish(id: string, team: nat) returns (ss: seq<State>, ls: seq<Label>)
    ensures IsTrace(ss, ls) && JustPublished(ss[|ls|], id, team)
    ensures ls == [Creates(id, team), Publishes(id, None)]
  {
    ss, ls := [Init()], [];
    ss, ls := Then(ss, ls, Creates(id, team));
    ss, ls := Then(ss, ls, Publishes(id, None));
  }

  /** An idle loop takes the only pending entry and claims the row. */
  lemma TakeAndClaim(ss: seq<State>, ls: seq<Label>, k: nat, id: string, token: string, lease: int, c: Claim)
    returns (ts: seq<State>, ms: seq<Label>)
    requires IsTrace(ss, ls) && At(ss[|ls|], k).Idle? && Sep !in token && token !in ss[|ls|].used
    requires ss[|ls|].q.pending == [id] && Hits(ss[|ls|], id, ClaimAttempt(c))
    ensures IsTrace(ts, ms)
    ensures var s, s' := ss[|ls|], ts[|ms|];
            && s'.rows == Write(s.rows, id, ClaimAttempt(c), s.now) && s'.published == s.published && s'.now == s.now
            && s'.q == Dequeue(s.q, token, lease) && s'.q.pending == []
            && s'.used == s.used + {token} && s'.loops == s.loops[k := Holding(token, id, HasLease(c))]
    ensures ms == ls + [Takes(k, token, lease, true), Loads(k, Ready), Writes(k, ClaimAttempt(c), Answered, false)]
  {
    ts, ms := Then(ss, ls, Takes(k, token, lease, true));
    ts, ms := Then(ts, ms, Loads(k, Ready));
    assert At(ts[|ms|], k) == Holding(token, id, Claiming);
    ts, ms := Then(ts, ms, Writes(k, ClaimAttempt(c), Answered, false));
  }

  /** The queue knows the email by the receipt of loop `k` and by nothing else. */
  ghost predicate OnlyReceipt(s: State, k: nat, id: string, token: string, phase: Phase) {
    && Sep !in token && id in s.rows && id in s.published && At(s, k) == Holding(token, id, phase)
    && s.q.processing == [Encode(token, id)] && s.q.pending == [] && s.q.scheduled == map[] && s.q.dead == []
  }

  lemma OnlyReceiptIsHeld(s: State, k: nat, id: string, token: string, phase: Phase)
    requires OnlyReceipt(s, k, id, token, phase)
    ensures id in Held(s.q)
  {
    DecodingReturnsTheId(token, id);
    HeldReceipt(s.q, Encode(token, id));
  }

  lemma AcknowledgingTheOnlyReceipt(s: State, k: nat, id: string, token: string)
    requires OnlyReceipt(s, k, id, token, ToAck) && NeedsQueue(s, id)
    ensures IsLost(Settle(s, k, true, true), id)
  {
    var q := Settle(s, k, true, true).q;
    assert q.processing == [];
  }

  lemma FailingForGood(s: State, k: nat, id: string, token: string, c: Claim)
    requires OnlyReceipt(s, k, id, token, HasLease(c)) && Owns(s.rows[id], c) && s.rows[id].status == Sending
    requires s.rows[id].state == Leased
    ensures var l := Writes(k, FinalizeFailed(c), Answered, false);
            && Enabled(s, l) && OnlyReceipt(Apply(s, l), k, id, token, ToAck)
            && forall replay :: Hits(Apply(s, l), id, PrepareReplay(replay))
  {}

  lemma PreparingOnly(s: State, k: nat, id: string, token: string, replay: nat)
    requires OnlyReceipt(s, k, id, token, ToAck) && Hits(s, id, PrepareReplay(replay))
    ensures var s' := Apply(s, Prepares(id, replay)); OnlyReceipt(s', k, id, token, ToAck) && NeedsQueue(s', id)
  {}

  lemma UpToTheAcknowledgement(id: string, team: nat, token: string, lease: int, c: Claim)
    returns (ss: seq<State>, ls: seq<Label>)
    requires Sep !in token
    ensures IsTrace(ss, ls) && OnlyReceipt(ss[|ls|], 0, id, token, ToAck)
    ensures forall replay :: Hits(ss[|ls|], id, PrepareReplay(replay))
  {
    ss, ls := Publish(id, team);
    ss, ls := TakeAndClaim(ss, ls, 0, id, token, lease, c);
    FailingForGood(ss[|ls|], 0, id, token, c);
    ss, ls := Then(ss, ls, Writes(0, FinalizeFailed(c), Answered, false));
  }

  /** A worker fails an email for good and is about to acknowledge; an operator replays it and
      the API stops after the row write; the worker acknowledges. The queue knew the email all
      the time until then. */
  lemma InterruptedReplayCanLose(id: string, team: nat, token: string, lease: int, c: Claim, replay: nat)
    returns (ss: seq<State>, ls: seq<Label>)
    requires Sep !in token
    ensures IsTrace(ss, ls) && |ls| > 2 && ls[|ls| - 2] == Prepares(id, replay)
    ensures Hits(ss[|ls| - 2], id, PrepareReplay(replay)) && id in Held(ss[|ls| - 2].q) && IsLost(ss[|ls|], id)
  {
    ss, ls := UpToTheAcknowledgement(id, team, token, lease, c);
    OnlyReceiptIsHeld(ss[|ls|], 0, id, token, ToAck);
    PreparingOnly(ss[|ls|], 0, id, token, replay);
    ss, ls := Then(ss, ls, Prepares(id, replay));
    AcknowledgingTheOnlyReceipt(ss[|ls|], 0, id, token);
    ss, ls := Then(ss, ls, Settles(0, true, true));
  }

  // Two loops: the queue takes back the receipt of a loop that stalls, a second loop finds the
  // row being sent and acknowledges, and then the first gives the row back.

  lemma TakenBack(s: State, k: nat, id: string, token: string, phase: Phase)
    requires OnlyReceipt(s, 0, id, token, phase) && s.q.leases == map[Encode(token, id) := s.now] && k != 0
    requires At(s, k).Idle?
    ensures var l, s' := RecoversQueue(k), s.(q := s.q.(pending := [id], processing := [], leases := map[]));
            Enabled(s, l) && Apply(s, l) == s'
  {
    var r := Encode(token, id);
    DecodingReturnsTheId(token, id);
    SweepStep([r], s.q.leases, s.now);
    assert Sweep([r], s.q.leases, s.now) == Swept([r], [], map[]) by {
      assert LeasesAfter(r, s.q.leases, s.now) == map[];
      assert Sweep([], map[], s.now) == Swept([], [], map[]);
    }
    assert Ids([r]) == [id];
  }

  lemma GivingBackUnowned(s: State, id: string, token: string, c: Claim)
    requires At(s, 0) == Holding(token, id, HasLease(c)) && id in s.published && Hits(s, id, MarkRetryable(c))
    requires id !in Held(s.q)
    ensures var l := Writes(0, MarkRetryable(c), Answered, false); Enabled(s, l) && IsLost(Apply(s, l), id)
  {}

  /** A second delivery of an email whose row is not queued: taken, looked at, acknowledged. */
  lemma TakeAndAcknowledge(ss: seq<State>, ls: seq<Label>, k: nat, id: string, token: string)
    returns (ts: seq<State>, ms: seq<Label>)
    requires IsTrace(ss, ls) && At(ss[|ls|], k).Idle? && Sep !in token && token !in ss[|ls|].used
    requires ss[|ls|].q.pending == [id] && ss[|ls|].q.processing == []
    requires id in ss[|ls|].rows && ss[|ls|].rows[id].status != Queued
    ensures IsTrace(ts, ms)
    ensures var s, s' := ss[|ls|], ts[|ms|];
            && s'.rows == s.rows && s'.published == s.published && s'.now == s.now
            && s'.q.pending == [] && s'.q.processing == [] && s'.q.scheduled == s.q.scheduled && s'.q.dead == s.q.dead
            && s'.loops == s.loops[k := Idle]
    ensures ts[|ms|].late == ss[|ls|].late
    ensures ms == ls + [Takes(k, token, 0, true), Loads(k, Ready), Settles(k, true, true)]
  {
    ts, ms := Then(ss, ls, Takes(k, token, 0, true));
    ts, ms := Then(ts, ms, Loads(k, Ready));
    assert At(ts[|ms|], k) == Holding(token, id, ToAck);
    AcknowledgedOnly(ts[|ms|], k, id, token);
    ts, ms := Then(ts, ms, Settles(k, true, true));
  }

  lemma AcknowledgedOnly(s: State, k: nat, id: string, token: string)
    requires At(s, k) == Holding(token, id, ToAck) && s.q.processing == [Encode(token, id)]
    ensures var s' := Settle(s, k, true, true);
            && s'.q.processing == [] && s'.q.pending == s.q.pending && s'.q.scheduled == s.q.scheduled
            && s'.q.dead == s.q.dead && s' == Go(s, k, Idle).(q := s'.q)
  {}

  /** Two loops lose an email without anyone failing: the first stalls past its queue lease. */
  lemma RetryCanLose(id: string, team: nat, token: string, other: string, c: Claim)
    returns (ss: seq<State>, ls: seq<Label>)
    requires Sep !in token && Sep !in other && token != other
    ensures IsTrace(ss, ls) && |ls| > 1 && ls[|ls| - 1] == Writes(0, MarkRetryable(c), Answered, false)
    ensures IsLost(ss[|ls|], id)
  {
    ss, ls := Publish(id, team);
    ss, ls := TakeAndClaim(ss, ls, 0, id, token, 0, c);
    TakenBack(ss[|ls|], 1, id, token, HasLease(c));
    ss, ls := Then(ss, ls, RecoversQueue(1));
    ss, ls := TakeAndAcknowledge(ss, ls, 1, id, other);
    GivingBackUnowned(ss[|ls|], id, token, c);
    ss, ls := Then(ss, ls, Writes(0, MarkRetryable(c), Answered, false));
  }

  // Three loops: between the queue write and the mark of a re-enqueue, the entry is taken, the
  // row claimed, and that claim expires as well.

  /** The claim of loop `holder` has expired; `k` flags the row. */
  lemma Flag(ss: seq<State>, ls: seq<Label>, k: nat, id: string) returns (ts: seq<State>, ms: seq<Label>)
    requires IsTrace(ss, ls) && At(ss[|ls|], k).Idle? && ss[|ls|].rows.Keys == {id}
    requires var r := ss[|ls|].rows[id]; r.status == Sending && r.state == Leased && r.lease.Some?
    ensures IsTrace(ts, ms)
    ensures var s, s' := ss[|ls|], ts[|ms|];
            && s'.rows == map[id := Requeued(s.rows[id], true)] && s.now <= s'.now
            && s' == s.(rows := s'.rows, now := s'.now)
  {
    var s := ss[|ls|];
    var later := if s.rows[id].lease.value < s.now then s.now else s.rows[id].lease.value + 1;
    ts, ms := Then(ss, ls, Ticks(later));
    ts, ms := Then(ts, ms, RecoversRows(k));
  }

  lemma ReenqueueWithoutMark(ss: seq<State>, ls: seq<Label>, k: nat, id: string)
    returns (ts: seq<State>, ms: seq<Label>)
    requires IsTrace(ss, ls) && At(ss[|ls|], k).Idle? && NeedsMark(ss[|ls|], id)
    ensures IsTrace(ts, ms)
    ensures ts[|ms|] == Go(ss[|ls|].(q := Enqueue(ss[|ls|].q, id)), k, Marking(id, []))
  {
    ts, ms := Then(ss, ls, Lists(k, [id]));
    assert At(ts[|ms|], k) == Reenqueuing([id]);
    ts, ms := Then(ts, ms, Reenqueues(k, true, true));
    assert [id][1..] == [];
    assert ts[|ms|].loops == ss[|ls|].loops[k := Marking(id, [])];
  }

  /** The stalled holder comes back, misses, and acknowledges its old receipt. */
  lemma MissAndAcknowledge(ss: seq<State>, ls: seq<Label>, k: nat, id: string, token: string, c: Claim)
    returns (ts: seq<State>, ms: seq<Label>)
    requires IsTrace(ss, ls) && At(ss[|ls|], k) == Holding(token, id, HasLease(c))
    requires NeedsMark(ss[|ls|], id) && ss[|ls|].q.processing == [Encode(token, id)]
    ensures IsTrace(ts, ms)
    ensures var s, s' := ss[|ls|], ts[|ms|];
            && s'.q.processing == [] && s'.q.pending == s.q.pending && s'.q.scheduled == s.q.scheduled
            && s'.q.dead == s.q.dead && s' == Go(s, k, Idle).(q := s'.q)
  {
    var s := ss[|ls|];
    ts, ms := Then(ss, ls, Writes(k, StartSend(c), Answered, false));
    assert s.rows[id := s.rows[id]] == s.rows;
    assert ts[|ms|] == Go(s, k, Holding(token, id, ToAck));
    AcknowledgedOnly(ts[|ms|], k, id, token);
    ts, ms := Then(ts, ms, Settles(k, true, true));
    assert ts[|ms|].loops == s.loops[k := Idle];
  }

  lemma OnlyReceiptIsNotSecured(s: State, k: nat, id: string, token: string, c: Claim)
    requires OnlyReceipt(s, k, id, token, HasLease(c))
    ensures !Secured(s, id)
  {
    forall r ensures !Live(s, r) {
      if r in s.q.processing { assert k in s.loops && GivesUp(s.loops[k], r); }
    }
  }

  /** At the mark the queue still has the entry, but only in the hands of a worker that is
      going to give it up: some continuation loses the email. */
  lemma RecoveryMarkCanLose(id: string, team: nat, token: string, other: string, c: Claim, d: Claim)
    returns (ss: seq<State>, ls: seq<Label>)
    requires Sep !in token && Sep !in other && token != other
    ensures IsTrace(ss, ls) && At(ss[|ls|], 1) == Marking(id, []) && NeedsMark(ss[|ls|], id) && id in Held(ss[|ls|].q)
    ensures !SafeFrom(Apply(ss[|ls|], Reenqueues(1, true, true)), id)
  {
    ss, ls := Publish(id, team);
    ss, ls := TakeAndClaim(ss, ls, 0, id, token, 0, c);
    ss, ls := Flag(ss, ls, 1, id);
    ss, ls := ReenqueueWithoutMark(ss, ls, 1, id);
    ss, ls := MissAndAcknowledge(ss, ls, 0, id, token, c);
    ss, ls := TakeAndClaim(ss, ls, 2, id, other, 0, d);
    ss, ls := Flag(ss, ls, 0, id);
    OnlyReceiptIsHeld(ss[|ls|], 2, id, other, HasLease(d));
    OnlyReceiptIsNotSecured(ss[|ls|], 2, id, other, d);
    RecoveryMarkIsSafeIff(ss, ls, 1, id, true);
  }

  // One loop: the write that gives the row back is still under way when the receipt is requeued,
  // taken again, and acknowledged because the row is being sent.

  lemma RequeuedOnly(s: State, id: string, token: string)
    requires OnlyReceipt(s, 0, id, token, ToRequeue(true)) && s.q.attempts == map[]
    ensures var s' := Settle(s, 0, true, true);
            && s'.q.processing == [] && s'.q.pending == [] && s'.q.dead == []
            && s'.q.scheduled == map[id := s.now + 1] && s' == Go(s, 0, Idle).(q := s'.q)
  {
    assert RetryDelay(1) == 1;
  }

  lemma PromotedOnly(s: State, id: string)
    requires s.q.scheduled == map[id := s.now] && s.q.pending == [] && At(s, 0).Idle?
    ensures Enabled(s, PromotesDue(0, [id]))
    ensures Apply(s, PromotesDue(0, [id])).q == s.q.(pending := [id], scheduled := map[])
  {
    assert PushAll([], [id]) == [id] by {
      assert PushAll([], [id]) == PushAll([id], []);
    }
    assert s.q.scheduled - Members([id]) == map[];
  }

  /** The row as the lost write will find it. */
  ghost predicate WaitsForRetry(s: State, id: string, token: string, c: Claim) {
    && s.used == {token} && s.published == {id} && RowWrite(id, MarkRetryable(c)) in s.late
    && Hits(s, id, MarkRetryable(c))
  }

  lemma LosingTheRetry(s: State, id: string, token: string, c: Claim)
    requires OnlyReceipt(s, 0, id, token, HasLease(c)) && Owns(s.rows[id], c) && s.rows[id].status == Sending
    requires s.rows[id].state == Leased && s.used == {token} && s.published == {id}
    ensures var l := Writes(0, MarkRetryable(c), Lost(false), false);
            && Enabled(s, l) && OnlyReceipt(Apply(s, l), 0, id, token, ToRequeue(true)) && Apply(s, l).q == s.q
            && WaitsForRetry(Apply(s, l), id, token, c)
  {}

  lemma UpToTheRetry(id: string, team: nat, token: string, lease: int, c: Claim)
    returns (ss: seq<State>, ls: seq<Label>)
    requires Sep !in token
    ensures IsTrace(ss, ls) && forall l | l in ls :: Solo(l)
    ensures OnlyReceipt(ss[|ls|], 0, id, token, ToRequeue(true)) && ss[|ls|].q.attempts == map[]
    ensures WaitsForRetry(ss[|ls|], id, token, c)
  {
    ss, ls := Publish(id, team);
    ss, ls := TakeAndClaim(ss, ls, 0, id, token, lease, c);
    LosingTheRetry(ss[|ls|], id, token, c);
    ss, ls := Then(ss, ls, Writes(0, MarkRetryable(c), Lost(false), false));
  }

  lemma UpToTheSecondTake(id: string, team: nat, token: string, lease: int, c: Claim)
    returns (ss: seq<State>, ls: seq<Label>)
    requires Sep !in token
    ensures IsTrace(ss, ls) && forall l | l in ls :: Solo(l)
    ensures WaitsForRetry(ss[|ls|], id, token, c)
    ensures var s := ss[|ls|];
            && At(s, 0).Idle? && s.q.pending == [id] && s.q.processing == []
            && s.q.scheduled == map[] && s.q.dead == []
  {
    ss, ls := UpToTheRetry(id, team, token, lease, c);
    RequeuedOnly(ss[|ls|], id, token);
    ss, ls := Then(ss, ls, Settles(0, true, true));
    ss, ls := Then(ss, ls, Ticks(ss[|ls|].now + 1));
    PromotedOnly(ss[|ls|], id);
    ss, ls := Then(ss, ls, PromotesDue(0, [id]));
  }

  /** Every step but the last is one of a single loop that nothing interrupts. */
  lemma LateRetryCanLose(id: string, team: nat, token: string, other: string, lease: int, c: Claim)
    returns (ss: seq<State>, ls: seq<Label>)
    requires Sep !in token && Sep !in other && token != other
    ensures IsTrace(ss, ls) && |ls| > 0 && ls[|ls| - 1] == Lands(RowWrite(id, MarkRetryable(c)))
    ensures forall i | 0 <= i < |ls| - 1 :: Solo(ls[i])
    ensures IsLost(ss[|ls|], id)
  {
    ss, ls := UpToTheSecondTake(id, team, token, lease, c);
    ss, ls := TakeAndAcknowledge(ss, ls, 0, id, other);
    ss, ls := Then(ss, ls, Lands(RowWrite(id, MarkRetryable(c))));
  }
}
