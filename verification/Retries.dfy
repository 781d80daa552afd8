/** How often an email is tried, and how long a receipt is protected, over every run of the
    queue scripts (internal/queue/redis.go:73-248). */
module Retries {
  import opened Receipts
  import opened Queue
  import opened QueueRuns

  // ------------------------------------------------------- counting failures

  /** The holder of a receipt gives it back and counts the try. */
  predicate Fails(s: State, l: Label, id: string) {
    l.Requeues? && l.id == id && l.count && l.token + "|" + id in s.q.processing
  }

  predicate StartsOver(s: State, l: Label, id: string) {
    (l.Replays? && l.id == id && id in s.q.dead) || (l.Forgets? && l.id == id)
  }

  /** The failed tries of an email among the first `k` steps since counting last started over,
      on top of what was stored when the run began. */
  ghost function Failures(ss: seq<State>, ls: seq<Label>, k: nat, id: string): nat
    requires k <= |ls| < |ss|
  {
    if k == 0 then if id in ss[0].q.attempts then ss[0].q.attempts[id] else 0
    else if StartsOver(ss[k - 1], ls[k - 1], id) then 0
    else Failures(ss, ls, k - 1, id) + if Fails(ss[k - 1], ls[k - 1], id) then 1 else 0
  }

  predicate Stores(q: Q, id: string, n: nat) {
    if id in q.attempts then q.attempts[id] == n else n == 0
  }

  lemma StepCounts(s: State, l: Label, id: string, n: nat)
    requires Stores(s.q, id, n)
    ensures Stores(Apply(s, l).q, id, if StartsOver(s, l, id) then 0 else n + if Fails(s, l, id) then 1 else 0)
  {
    match l
    case Requeues(token, other, _, _) => assert Encode(token, other) == token + "|" + other;
    case _ =>
  }

  /** The stored counter is the number of failures. */
  lemma {:induction false} CounterCountsFailures(ss: seq<State>, ls: seq<Label>, k: nat, id: string)
    requires IsTrace(ss, ls) && k < |ss|
    ensures Stores(ss[k].q, id, Failures(ss, ls, k, id))
  {
    if k > 0 {
      CounterCountsFailures(ss, ls, k - 1, id);
      StepCounts(ss[k - 1], ls[k - 1], id, Failures(ss, ls, k - 1, id));
    }
  }

  lemma SmallPowers()
    ensures RetryDelay(0) == 1 && RetryDelay(1) == 1 && RetryDelay(2) == 2 && RetryDelay(3) == 4 && RetryDelay(4) == 8
  {
    assert Pow2(1) == 2 && Pow2(2) == 4 && Pow2(3) == 8;
  }

  /** Giving a receipt back uses it up. The fifth failure, or any later one, puts the email at
      the head of the dead list, which keeps ten thousand, and on no schedule; the first four
      schedule it after 1, 2, 4 and 8 seconds. A try that does not count leaves the counter
      alone and schedules the email after one second. */
  lemma FailuresRetryThenDie(ss: seq<State>, ls: seq<Label>, k: nat, token: string, id: string, now: int, count: bool)
    requires IsTrace(ss, ls) && k < |ls| && ls[k] == Requeues(token, id, now, count)
    requires token + "|" + id in ss[k].q.processing
    ensures var q, q', n := ss[k].q, ss[k + 1].q, Failures(ss, ls, k + 1, id);
            && token + "|" + id !in q'.processing && token + "|" + id !in q'.leases && q'.pending == q.pending
            && (count && n >= 5 ==>
                  q'.scheduled == q.scheduled && q'.dead == [id] + q.dead[..if |q.dead| < 9999 then |q.dead| else 9999])
            && (count && n < 5 ==>
                  q'.dead == q.dead && 1 <= n && q'.attempts == q.attempts[id := n]
                  && q'.scheduled == q.scheduled[id := now + [1, 2, 4, 8][n - 1]])
            && (!count ==> q'.dead == q.dead && q'.attempts == q.attempts && q'.scheduled == q.scheduled[id := now + 1])
  {
    var q, r := ss[k].q, Encode(token, id);
    assert r == token + "|" + id;
    CounterCountsFailures(ss, ls, k, id);
    SmallPowers();
    InvHolds(ss, ls, k);
    DecodingReturnsTheId(token, id);
    RemovingAReceipt(q.processing, r);
  }

  /** Nothing else makes a dead letter. */
  lemma OnlyFailuresDie(ss: seq<State>, ls: seq<Label>, k: nat, id: string)
    requires IsTrace(ss, ls) && k < |ls| && id !in ss[k].q.dead && id in ss[k + 1].q.dead
    ensures Fails(ss[k], ls[k], id) && Failures(ss, ls, k + 1, id) >= 5
  {
    match ls[k]
    case Requeues(token, other, _, _) =>
      assert Encode(token, other) == token + "|" + other;
      CounterCountsFailures(ss, ls, k, other);
    case Replays(other) => RemoveFirstDrops(ss[k].q.dead, other);
    case _ =>
  }

  // ------------------------------------------------------------ lease and receipt

  lemma StepKeepsLease(s: State, l: Label, r: string)
    requires Inv(s) && Enabled(s, l) && Tokenised(r) && TokenOf(r) in s.issued
    requires r in Apply(s, l).q.processing
    ensures TokenOf(r) in Apply(s, l).issued && r in s.q.processing && r in s.q.leases
    ensures r in Apply(s, l).q.leases && Apply(s, l).q.leases[r] == s.q.leases[r]
  {
    match l
    case Deq(token, _) =>
      if s.q.pending != [] { TokenOfEncoded(token, s.q.pending[|s.q.pending| - 1]); }
    case Acks(token, id) => StepGivesUp(s, token, id);
    case Requeues(token, id, _, _) => StepGivesUp(s, token, id);
    case Reschedules(token, id, _) => StepGivesUp(s, token, id);
    case Recovers(now) =>
      SweepReceipts(s.q.processing, s.q.leases, now);
      SweepLeases(s.q.processing, s.q.leases, now, r);
    case _ =>
  }

  lemma StepGivesUp(s: State, token: string, id: string)
    requires Inv(s) && Sep !in token
    ensures var d := Drop(s.q, Encode(token, id));
            && Encode(token, id) !in d.processing && (forall x :: x in d.processing ==> x in s.q.processing)
  {
    DecodingReturnsTheId(token, id);
    RemovingAReceipt(s.q.processing, Encode(token, id));
    RemoveFirstDrops(s.q.processing, Encode(token, id));
  }

  predicate TakenBack(x: string, leases: map<string, int>, now: int) {
    x in leases && leases[x] <= now && ('|' in x || UuidShaped(x))
  }

  /** Of each item whose lease is over, one occurrence moves; everything else is kept. */
  lemma {:induction false} SweepMovesTheOver(items: seq<string>, leases: map<string, int>, now: int, x: string)
    ensures var w := Sweep(items, leases, now);
            && multiset(w.moved)[x] == (if x in items && TakenBack(x, leases, now) then 1 else 0)
            && multiset(w.moved)[x] + multiset(w.kept)[x] == multiset(items)[x]
    decreases |items|
  {
    if items != [] {
      SweepMovesTheOver(items[1..], LeasesAfter(items[0], leases, now), now, x);
      assert items == [items[0]] + items[1..];
    }
  }

  /** The leases of what is kept stay as they are, and a raw id without one is given 300
      seconds. */
  lemma {:induction false} SweepLeases(items: seq<string>, leases: map<string, int>, now: int, x: string)
    ensures var w := Sweep(items, leases, now);
            if x in items && TakenBack(x, leases, now) then '|' in x ==> x !in w.leases
            else if x in leases then x in w.leases && w.leases[x] == leases[x]
            else if x in items && '|' !in x && UuidShaped(x) then x in w.leases && w.leases[x] == now + 300
            else x !in w.leases
    decreases |items|
  {
    if items != [] {
      SweepLeases(items[1..], LeasesAfter(items[0], leases, now), now, x);
    }
  }

  predicate HandsOut(s: State, l: Label, token: string, id: string, lease: int) {
    l == Deq(token, lease) && s.q.pending != [] && s.q.pending[|s.q.pending| - 1] == id
  }

  lemma HandedOut(s: State, l: Label, token: string, id: string, lease: int)
    requires Enabled(s, l) && HandsOut(s, l, token, id, lease)
    ensures var s', r := Apply(s, l), Encode(token, id);
            Tokenised(r) && TokenOf(r) == token && token in s'.issued && r in s'.q.leases && s'.q.leases[r] == lease
  {
    DecodingReturnsTheId(token, id);
    TokenOfEncoded(token, id);
  }

  /** If the receipt is still there, so is the lease it had. */
  ghost predicate SameLease(was: State, s: State, r: string) {
    && TokenOf(r) in s.issued
    && (r in s.q.processing ==> r in was.q.leases && r in s.q.leases && s.q.leases[r] == was.q.leases[r])
  }

  lemma StepKeepsSameLease(was: State, s: State, l: Label, r: string)
    requires Inv(s) && Enabled(s, l) && Tokenised(r) && SameLease(was, s, r)
    ensures SameLease(was, Apply(s, l), r)
  {
    if r in Apply(s, l).q.processing { StepKeepsLease(s, l, r); }
  }

  lemma NextKeepsSameLease(ss: seq<State>, ls: seq<Label>, i: nat, j: nat, r: string)
    requires IsTrace(ss, ls) && i <= j < |ls| && Tokenised(r) && SameLease(ss[i], ss[j], r)
    ensures SameLease(ss[i], ss[j + 1], r)
  {
    InvHolds(ss, ls, j);
    StepKeepsSameLease(ss[i], ss[j], ls[j], r);
  }

  lemma {:induction false} SameLeaseHolds(ss: seq<State>, ls: seq<Label>, i: nat, j: nat, r: string)
    requires IsTrace(ss, ls) && i <= j < |ss| && Tokenised(r) && TokenOf(r) in ss[i].issued
    ensures SameLease(ss[i], ss[j], r)
    decreases j
  {
    if i < j {
      SameLeaseHolds(ss, ls, i, j - 1, r);
      NextKeepsSameLease(ss, ls, i, j - 1, r);
    } else {
      InvHolds(ss, ls, i);
    }
  }

  /** As long as a receipt is in the processing list it has the lease it was handed out with. */
  lemma LeaseIsKept(ss: seq<State>, ls: seq<Label>, i: nat, j: nat, token: string, id: string, lease: int)
    requires IsTrace(ss, ls) && i < j < |ss| && HandsOut(ss[i], ls[i], token, id, lease)
    ensures token + "|" + id in ss[j].q.processing ==>
              token + "|" + id in ss[j].q.leases && ss[j].q.leases[token + "|" + id] == lease
  {
    assert Encode(token, id) == token + "|" + id;
    HandedOut(ss[i], ls[i], token, id, lease);
    SameLeaseHolds(ss, ls, i + 1, j, Encode(token, id));
  }

  /** Recovery takes a receipt back if and only if the lease it was handed out with is over: then
      its id is pending again, to be handed out before all others, and else it stays. */
  lemma TakenBackWhenOver(ss: seq<State>, ls: seq<Label>, i: nat, j: nat, token: string, id: string, lease: int,
                          now: int)
    requires IsTrace(ss, ls) && i < j < |ls| && HandsOut(ss[i], ls[i], token, id, lease) && ls[j] == Recovers(now)
    requires token + "|" + id in ss[j].q.processing
    ensures token + "|" + id in ss[j + 1].q.processing <==> now < lease
    ensures ss[j].q.pending <= ss[j + 1].q.pending
    ensures lease <= now ==> id in ss[j + 1].q.pending[|ss[j].q.pending|..]
  {
    var r, q := Encode(token, id), ss[j].q;
    assert r == token + "|" + id;
    DecodingReturnsTheId(token, id);
    LeaseIsKept(ss, ls, i, j, token, id, lease);
    InvHolds(ss, ls, j);
    SweepMovesTheOver(q.processing, q.leases, now, r);
    SweepReceipts(q.processing, q.leases, now);
    var w := Sweep(q.processing, q.leases, now);
    InIds(w.moved, id);
    assert ss[j + 1].q.pending[|q.pending|..] == Ids(w.moved);
    assert r in w.moved <==> multiset(w.moved)[r] > 0;
  }
}
