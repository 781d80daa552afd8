/** The queue as the scripts change it in place. */
module RedisQueue {
  import opened Common
  import opened EmailDomain
  import opened Receipts
  import Queue

  lemma {:induction false} PushAllSnoc(pending: seq<string>, ids: seq<string>, id: string)
    ensures Queue.PushAll(pending, ids + [id]) == [id] + Queue.PushAll(pending, ids)
    decreases |ids|
  {
    if ids != [] {
      assert (ids + [id])[1..] == ids[1..] + [id];
      PushAllSnoc([ids[0]] + pending, ids[1..], id);
    }
  }

  /** Seconds until the next try, by the number of tries that failed. */
  function BackOff(count: bool, failures: nat): int {
    if !count then 1 else if failures <= 1 then 1 else if failures == 2 then 2 else if failures == 3 then 4 else 8
  }

  class EmailQueue {
    var pending: seq<string>
    var processing: seq<string>
    var scheduled: map<string, int>
    var dead: seq<string>
    var leases: map<string, int>
    var attempts: map<string, nat>

    ghost function View(): Queue.Q reads this {
      Queue.Q(pending, processing, scheduled, dead, leases, attempts)
    }

    constructor ()
      ensures View() == Queue.Empty
    {
      pending, processing, scheduled, dead, leases, attempts := [], [], map[], [], map[], map[];
    }

    method Dequeue(token: string, leaseUntil: int) returns (id: Option<string>)
      modifies this
      ensures View() == Queue.Dequeue(old(View()), token, leaseUntil)
      ensures if old(pending) == [] then id == None && View() == old(View())
              else && id.Some? && old(pending) == pending + [id.value]
                   && processing == [token + "|" + id.value] + old(processing)
                   && leases == old(leases)[token + "|" + id.value := leaseUntil]
    {
      if pending == [] { return None; }
      var last := |pending| - 1;
      id := Some(pending[last]);
      var receipt := Encode(token, id.value);
      pending := pending[..last];
      processing := [receipt] + processing;
      leases := leases[receipt := leaseUntil];
    }

    method Ack(token: string, id: string) returns (owned: bool)
      modifies this
      ensures View() == Queue.Ack(old(View()), token, id) && owned == (token + "|" + id in old(processing))
      ensures owned ==> processing == Queue.RemoveFirst(old(processing), token + "|" + id)
                        && leases == old(leases) - {token + "|" + id}
      ensures !owned ==> View() == old(View())
    {
      var receipt := Encode(token, id);
      owned := receipt in processing;
      if owned {
        processing := Queue.RemoveFirst(processing, receipt);
        leases := leases - {receipt};
      }
    }

    /** None: no longer owned. Some(true): moved to the dead list. Some(false): scheduled again. */
    method Requeue(token: string, id: string, now: int, count: bool) returns (deadLettered: Option<bool>)
      modifies this
      ensures View() == Queue.Requeue(old(View()), token, id, now, count)
      ensures token + "|" + id !in old(processing) ==> deadLettered == None && View() == old(View())
      ensures token + "|" + id in old(processing) ==>
                var n := 1 + if id in old(attempts) then old(attempts)[id] else 0;
                && deadLettered == Some(count && n >= 5)
                && attempts == (if count then old(attempts)[id := n] else old(attempts))
                && leases == old(leases) - {token + "|" + id} && pending == old(pending)
                && if deadLettered == Some(true)
                   then dead == [id] + old(dead)[..if |old(dead)| < 9999 then |old(dead)| else 9999]
                        && scheduled == old(scheduled)
                   else dead == old(dead) && scheduled == old(scheduled)[id := now + BackOff(count, n)]
    {
      var receipt := Encode(token, id);
      if receipt !in processing { return None; }
      processing := Queue.RemoveFirst(processing, receipt);
      leases := leases - {receipt};
      var n := 0;
      if count {
        n := 1 + if id in attempts then attempts[id] else 0;
        attempts := attempts[id := n];
        if n >= Queue.MaxAttempts {
          dead := Queue.Trim([id] + dead);
          return Some(true);
        }
      }
      assert Queue.Pow2(1) == 2 && Queue.Pow2(2) == 4 && Queue.Pow2(3) == 8;
      scheduled := scheduled[id := now + Queue.RetryDelay(n)];
      deadLettered := Some(false);
    }

    method RescheduleReceipt(token: string, id: string, at: int) returns (owned: bool)
      modifies this
      ensures View() == Queue.RescheduleReceipt(old(View()), token, id, at)
      ensures owned == (token + "|" + id in old(processing))
      ensures owned ==> processing == Queue.RemoveFirst(old(processing), token + "|" + id)
                        && leases == old(leases) - {token + "|" + id} && scheduled == old(scheduled)[id := at]
      ensures !owned ==> View() == old(View())
    {
      var receipt := Encode(token, id);
      owned := receipt in processing;
      if owned {
        processing := Queue.RemoveFirst(processing, receipt);
        leases := leases - {receipt};
        scheduled := scheduled[id := at];
      }
    }

    method ReplayDead(id: string) returns (found: bool)
      modifies this
      ensures View() == Queue.ReplayDead(old(View()), id) && found == (id in old(dead))
      ensures found ==> dead == Queue.RemoveFirst(old(dead), id) && id !in attempts
                        && attempts == old(attempts) - {id} && pending == [id] + old(pending)
      ensures !found ==> View() == old(View())
    {
      found := id in dead;
      if found {
        dead := Queue.RemoveFirst(dead, id);
        attempts := attempts - {id};
        pending := [id] + pending;
      }
    }

    /** The script's loop: rebuild the processing list, moving what has expired. */
    method Recover(now: int) returns (recovered: nat)
      modifies this
      ensures View() == Queue.Recover(old(View()), now)
      ensures recovered == |Queue.Sweep(old(processing), old(leases), now).moved|
    {
      var items, held := processing, leases;
      var moved: seq<string>, keep: seq<string>, i := [], [], 0;
      while i < |items|
        invariant 0 <= i <= |items| && View() == old(View())
        invariant Queue.Sweep(items, leases, now) == Queue.Joined(moved, keep, Queue.Sweep(items[i..], held, now))
      {
        var item := items[i];
        Queue.SweepStep(items[i..], held, now);
        assert items[i..][1..] == items[i + 1..];
        Queue.JoinedStep(moved, keep, item, Queue.Sweep(items[i + 1..], Queue.LeasesAfter(item, held, now), now));
        if Tokenised(item) && item in held && held[item] <= now {
          moved, held := moved + [item], held - {item};
        } else if !Tokenised(item) && UuidShaped(item) {
          if item in held && held[item] <= now {
            moved, held := moved + [item], held - {item};
          } else {
            if item !in held { held := held[item := now + Queue.LeaseSeconds]; }
            keep := keep + [item];
          }
        } else {
          keep := keep + [item];
        }
        i := i + 1;
      }
      assert items[i..] == [] && moved + [] == moved && keep + [] == keep;
      pending := pending + Queue.Ids(moved);
      processing, leases := keep, held;
      recovered := |moved|;
    }

    /** The script's loop over the due ids, earliest first. */
    method PromoteScheduled(now: int) returns (ids: seq<string>)
      modifies this
      ensures Queue.IsPromotion(old(View()), now, ids)
      ensures View() == Queue.Promote(old(View()), ids)
      ensures |pending| == |ids| + |old(pending)| && pending[|ids|..] == old(pending)
      ensures forall i | 0 <= i < |ids| :: pending[i] == ids[|ids| - 1 - i]
    {
      ids := Earliest(scheduled, now);
      var list, i := pending, 0;
      while i < |ids|
        invariant 0 <= i <= |ids| && View() == old(View()) && list == Queue.PushAll(pending, ids[..i])
      {
        PushAllSnoc(pending, ids[..i], ids[i]);
        assert ids[..i + 1] == ids[..i] + [ids[i]];
        list := [ids[i]] + list;
        i := i + 1;
      }
      assert ids[..i] == ids;
      Queue.PushAllReverses(pending, ids);
      pending, scheduled := list, scheduled - Queue.Members(ids);
    }
  }

  /** ZRANGEBYSCORE key -inf now LIMIT 0 100 */
  method Earliest(score: map<string, int>, now: int) returns (ids: seq<string>)
    ensures Queue.IsPromotion(Queue.Empty.(scheduled := score), now, ids)
  {
    ids := [];
    var due := set id | id in score && score[id] <= now;
    while due != {} && |ids| < Queue.PromoteLimit
      invariant |ids| <= Queue.PromoteLimit
      invariant forall x :: x in due <==> x in score && score[x] <= now && x !in ids
      invariant forall i | 0 <= i < |ids| :: ids[i] in score && score[ids[i]] <= now
      invariant forall i, j | 0 <= i < j < |ids| :: ids[i] != ids[j] && score[ids[i]] <= score[ids[j]]
      invariant forall i, x | 0 <= i < |ids| && x in due :: score[ids[i]] <= score[x]
      decreases |due|
    {
      LeastExists(due, score);
      var id :| id in due && forall y | y in due :: score[id] <= score[y];
      due := due - {id};
      ids := ids + [id];
    }
  }
}

/** Every run of the scripts: who owns a receipt, and how often it is used up. */
module QueueRuns {
  import opened Receipts
  import opened Queue

  datatype State = State(q: Q, issued: set<string>, consumed: seq<string>)

  datatype Label =
    | Enq(id: string)
    | Sched(id: string, at: int)
    | Promotes(now: int, ids: seq<string>)
    | Deq(token: string, lease: int)
    | Acks(token: string, id: string)
    | Requeues(token: string, id: string, now: int, count: bool)
    | Reschedules(token: string, id: string, at: int)
    | Replays(id: string)
    | Recovers(now: int)
    | Forgets(id: string)       // Redis drops a counter a day after its last increment

  /** A rolling deployment may leave raw ids in the processing list, without leases. */
  predicate IsInit(s: State) {
    && (forall x | x in s.q.processing :: !Tokenised(x))
    && s.q.leases == map[] && s.issued == {} && s.consumed == []
  }

  ghost predicate Enabled(s: State, l: Label) {
    match l
    case Deq(token, _) => Sep !in token && token !in s.issued
    case Acks(token, _) => Sep !in token
    case Requeues(token, _, _, _) => Sep !in token
    case Reschedules(token, _, _) => Sep !in token
    case Promotes(now, ids) => IsPromotion(s.q, now, ids)
    case _ => true
  }

  function Receipted(items: seq<string>): seq<string> {
    if items == [] then [] else (if Tokenised(items[0]) then [items[0]] else []) + Receipted(items[1..])
  }

  function Used(s: State, receipt: string): seq<string> {
    if receipt in s.q.processing then s.consumed + [receipt] else s.consumed
  }

  function Apply(s: State, l: Label): State {
    match l
    case Enq(id) => s.(q := Enqueue(s.q, id))
    case Sched(id, at) => s.(q := Schedule(s.q, id, at))
    case Promotes(_, ids) => s.(q := Promote(s.q, ids))
    case Deq(token, lease) => s.(q := Dequeue(s.q, token, lease), issued := s.issued + {token})
    case Acks(token, id) => s.(q := Ack(s.q, token, id), consumed := Used(s, Encode(token, id)))
    case Requeues(token, id, now, count) =>
      s.(q := Requeue(s.q, token, id, now, count), consumed := Used(s, Encode(token, id)))
    case Reschedules(token, id, at) =>
      s.(q := RescheduleReceipt(s.q, token, id, at), consumed := Used(s, Encode(token, id)))
    case Replays(id) => s.(q := ReplayDead(s.q, id))
    case Forgets(id) => s.(q := s.q.(attempts := s.q.attempts - {id}))
    case Recovers(now) =>
      s.(q := Recover(s.q, now), consumed := s.consumed + Receipted(Sweep(s.q.processing, s.q.leases, now).moved))
  }

  ghost predicate IsTrace(ss: seq<State>, ls: seq<Label>) {
    && |ss| == |ls| + 1 && IsInit(ss[0])
    && forall i | 0 <= i < |ls| :: Enabled(ss[i], ls[i]) && ss[i + 1] == Apply(ss[i], ls[i])
  }

  function TokenOf(item: string): string {
    if item == [] || item[0] == Sep then [] else [item[0]] + TokenOf(item[1..])
  }

  lemma {:induction false} TokenOfEncoded(token: string, id: string)
    requires Sep !in token
    ensures TokenOf(Encode(token, id)) == token
  {
    if token != [] {
      assert Encode(token, id)[1..] == Encode(token[1..], id);
      TokenOfEncoded(token[1..], id);
    }
  }

  /** No receipt appears twice (raw items may). */
  predicate Once(items: seq<string>) {
    forall i, j | 0 <= i < j < |items| && items[i] == items[j] :: !Tokenised(items[i])
  }

  ghost predicate Inv(s: State) {
    && Once(s.q.processing)
    && (forall r | Tokenised(r) :: r in s.q.leases <==> r in s.q.processing)
    && (forall r | r in s.q.processing && Tokenised(r) :: TokenOf(r) in s.issued)
    && (forall r | r in s.consumed :: Tokenised(r) && TokenOf(r) in s.issued && r !in s.q.processing)
    && Once(s.consumed)
  }

  lemma {:induction false} RemovingAReceipt(items: seq<string>, r: string)
    requires Once(items) && Tokenised(r)
    ensures Once(RemoveFirst(items, r)) && r !in RemoveFirst(items, r)
  {
    if items != [] {
      var rest := items[1..];
      assert Once(rest);
      RemoveFirstDrops(rest, r);
      if items[0] == r {
        assert forall i | 0 <= i < |rest| :: rest[i] == items[i + 1];
      } else {
        RemovingAReceipt(rest, r);
        var kept := RemoveFirst(rest, r);
        assert forall x | x in kept :: x in rest;
        OnceCons(items[0], kept);
        forall i | 0 <= i < |rest| && rest[i] == items[0] ensures !Tokenised(items[0]) {
          assert items[i + 1] == items[0];
        }
      }
    }
  }

  lemma OnceCons(x: string, items: seq<string>)
    requires Once(items)
    ensures !(Tokenised(x) && x in items) ==> Once([x] + items)
  {
    if !(Tokenised(x) && x in items) {
      var all := [x] + items;
      forall i, j | 0 <= i < j < |all| && all[i] == all[j] ensures !Tokenised(all[i]) {
        assert all[j] == items[j - 1];
      }
    }
  }

  lemma ConsumingKeepsInv(s: State, token: string, id: string)
    requires Inv(s) && Sep !in token
    ensures Inv(s.(q := Ack(s.q, token, id), consumed := Used(s, Encode(token, id))))
  {
    var r := Encode(token, id);
    if r in s.q.processing {
      DecodingReturnsTheId(token, id);
      RemovingAReceipt(s.q.processing, r);
      RemoveFirstDrops(s.q.processing, r);
    }
  }

  /** Only pending, scheduled, dead and the counters differ: the invariant does not look there. */
  lemma Elsewhere(s: State, s': State)
    requires Inv(s) && s'.issued == s.issued && s'.consumed == s.consumed
    requires s'.q.processing == s.q.processing && s'.q.leases == s.q.leases
    ensures Inv(s')
  {}

  lemma {:induction false} SweepReceipts(items: seq<string>, leases: map<string, int>, now: int)
    requires Once(items)
    ensures var s := Sweep(items, leases, now);
            && Once(s.moved) && Once(s.kept)
            && (forall x :: x in s.moved || x in s.kept ==> x in items)
            && (forall x | Tokenised(x) :: x in items ==> (x in s.moved <==> x !in s.kept))
            && (forall x | Tokenised(x) :: x in s.leases <==> x in leases && x !in s.moved)
    decreases |items|
  {
    if items != [] {
      var x, rest, l := items[0], items[1..], LeasesAfter(items[0], leases, now);
      assert Once(rest);
      SweepReceipts(rest, l, now);
      var s := Sweep(rest, l, now);
      forall y | y in rest && y == x ensures !Tokenised(x) {
        var i :| 0 <= i < |rest| && rest[i] == y;
        assert items[i + 1] == x && items[0] == x;
      }
      OnceCons(x, s.moved);
      OnceCons(x, s.kept);
    }
  }

  lemma {:induction false} ReceiptedOnce(items: seq<string>)
    requires Once(items)
    ensures Once(Receipted(items)) && forall x :: x in Receipted(items) <==> x in items && Tokenised(x)
  {
    if items != [] {
      var rest := items[1..];
      assert Once(rest);
      ReceiptedOnce(rest);
      forall i | 0 <= i < |rest| && rest[i] == items[0] ensures !Tokenised(items[0]) {
        assert items[i + 1] == items[0];
      }
      OnceCons(items[0], Receipted(rest));
    }
  }

  lemma RecoveringKeepsInv(s: State, now: int)
    requires Inv(s)
    ensures Inv(Apply(s, Recovers(now)))
  {
    var w := Sweep(s.q.processing, s.q.leases, now);
    SweepReceipts(s.q.processing, s.q.leases, now);
    ReceiptedOnce(w.moved);
    OnceAppend(s.consumed, Receipted(w.moved));
  }

  lemma OnceAppend(a: seq<string>, b: seq<string>)
    requires Once(a) && Once(b) && forall x | x in a :: x !in b
    ensures Once(a + b)
  {
    var all := a + b;
    assert forall i, j | 0 <= i < |a| <= j < |all| :: all[i] in a && all[j] in b;
  }

  lemma DequeuingKeepsInv(s: State, token: string, lease: int)
    requires Inv(s) && Sep !in token && token !in s.issued
    ensures Inv(Apply(s, Deq(token, lease)))
  {
    if s.q.pending != [] {
      var id := s.q.pending[|s.q.pending| - 1];
      var r := Encode(token, id);
      DecodingReturnsTheId(token, id);
      TokenOfEncoded(token, id);
      OnceCons(r, s.q.processing);
    }
  }

  lemma StepKeepsInv(s: State, l: Label)
    requires Inv(s) && Enabled(s, l)
    ensures Inv(Apply(s, l))
  {
    match l
    case Deq(token, lease) => DequeuingKeepsInv(s, token, lease);
    case Acks(token, id) => ConsumingKeepsInv(s, token, id);
    case Requeues(token, id, now, count) =>
      ConsumingKeepsInv(s, token, id);
      Elsewhere(s.(q := Ack(s.q, token, id), consumed := Used(s, Encode(token, id))), Apply(s, l));
    case Reschedules(token, id, at) =>
      ConsumingKeepsInv(s, token, id);
      Elsewhere(s.(q := Ack(s.q, token, id), consumed := Used(s, Encode(token, id))), Apply(s, l));
    case Recovers(now) => RecoveringKeepsInv(s, now);
    case _ => Elsewhere(s, Apply(s, l));
  }

  lemma {:induction false} InvHolds(ss: seq<State>, ls: seq<Label>, k: nat)
    requires IsTrace(ss, ls) && k < |ss|
    ensures Inv(ss[k])
  {
    if k > 0 {
      InvHolds(ss, ls, k - 1);
      StepKeepsInv(ss[k - 1], ls[k - 1]);
    }
  }

  /** In every reachable state the receipts in the processing list and in the lease set are
      the same ones, each once. */
  lemma LeasesMatchReceipts(ss: seq<State>, ls: seq<Label>, k: nat, r: string)
    requires IsTrace(ss, ls) && k < |ss| && Tokenised(r)
    ensures r in ss[k].q.leases <==> r in ss[k].q.processing
    ensures forall i, j | 0 <= i < |ss[k].q.processing| && 0 <= j < |ss[k].q.processing| ::
              ss[k].q.processing[i] == r == ss[k].q.processing[j] ==> i == j
  {
    InvHolds(ss, ls, k);
  }

  /** Over a whole run a receipt is used up at most once, whichever of acknowledgement,
      retry, rescheduling and recovery gets to it, and after that it is gone for good. */
  lemma ReceiptsAreUsedOnce(ss: seq<State>, ls: seq<Label>, k: nat)
    requires IsTrace(ss, ls) && k < |ss|
    ensures forall i, j | 0 <= i < j < |ss[k].consumed| :: ss[k].consumed[i] != ss[k].consumed[j]
    ensures forall r | r in ss[k].consumed :: r !in ss[k].q.processing && r !in ss[k].q.leases
  {
    InvHolds(ss, ls, k);
    forall i, j | 0 <= i < j < |ss[k].consumed| ensures ss[k].consumed[i] != ss[k].consumed[j] {
      assert ss[k].consumed[i] in ss[k].consumed;
    }
  }
}
