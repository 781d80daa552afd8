/** The Redis email queue: its five collections, the attempt counters, and the atomic
    scripts that change them (internal/queue/redis.go). */
module Queue {
  import opened Receipts

  const MaxAttempts := 5
  const DeadCap := 10000
  const LeaseSeconds := 300
  const PromoteLimit := 100

  /** Lists are stored head first: LPUSH adds at index 0, RPUSH at the end. */
  datatype Q = Q(
    pending: seq<string>,
    processing: seq<string>,
    scheduled: map<string, int>,
    dead: seq<string>,
    leases: map<string, int>,
    attempts: map<string, nat>)

  const Empty := Q([], [], map[], [], map[], map[])

  // ------------------------------------------------------------ small scripts

  /** LREM key 1 item */
  function RemoveFirst(s: seq<string>, x: string): seq<string> {
    if s == [] then [] else if s[0] == x then s[1..] else [s[0]] + RemoveFirst(s[1..], x)
  }

  function Enqueue(q: Q, id: string): Q {
    q.(pending := [id] + q.pending)
  }

  function Schedule(q: Q, id: string, at: int): Q {
    q.(scheduled := q.scheduled[id := at])
  }

  function Dequeue(q: Q, token: string, lease: int): Q {
    if q.pending == [] then q
    else
      var id := q.pending[|q.pending| - 1];
      var r := Encode(token, id);
      q.(pending := q.pending[..|q.pending| - 1], processing := [r] + q.processing, leases := q.leases[r := lease])
  }

  /** The common start of Ack, Requeue and RescheduleReceipt. */
  function Drop(q: Q, receipt: string): Q {
    q.(processing := RemoveFirst(q.processing, receipt), leases := q.leases - {receipt})
  }

  function Ack(q: Q, token: string, id: string): Q {
    var r := Encode(token, id);
    if r in q.processing then Drop(q, r) else q
  }

  function Attempts(q: Q, id: string): nat {
    if id in q.attempts then q.attempts[id] else 0
  }

  predicate DeadLetters(q: Q, id: string, count: bool) {
    count && Attempts(q, id) + 1 >= MaxAttempts
  }

  function Pow2(n: nat): nat {
    if n == 0 then 1 else 2 * Pow2(n - 1)
  }

  function RetryDelay(attempts: nat): nat {
    var d := if attempts > 1 then Pow2(attempts - 1) else 1;
    if d > 300 then 300 else d
  }

  /** LTRIM key 0 9999 */
  function Trim(dead: seq<string>): seq<string> {
    if |dead| <= DeadCap then dead else dead[..DeadCap]
  }

  function Requeue(q: Q, token: string, id: string, now: int, count: bool): Q {
    var r := Encode(token, id);
    if r !in q.processing then q
    else
      var d := Drop(q, r);
      var n := if count then Attempts(q, id) + 1 else 0;
      var c := if count then d.(attempts := d.attempts[id := n]) else d;
      if DeadLetters(q, id, count) then c.(dead := Trim([id] + c.dead))
      else c.(scheduled := c.scheduled[id := now + RetryDelay(n)])
  }

  function RescheduleReceipt(q: Q, token: string, id: string, at: int): Q {
    var r := Encode(token, id);
    if r !in q.processing then q else Schedule(Drop(q, r), id, at)
  }

  function ReplayDead(q: Q, id: string): Q {
    if id !in q.dead then q
    else q.(dead := RemoveFirst(q.dead, id), attempts := q.attempts - {id}, pending := [id] + q.pending)
  }

  // ------------------------------------------------------------------ Recover

  predicate Expired(item: string, leases: map<string, int>, now: int) {
    item in leases && leases[item] <= now && (Tokenised(item) || UuidShaped(item))
  }

  /** The script's treatment of one item: moved or kept, and the leases afterwards. A raw
      item without a lease is given one full lease before it can be recovered. */
  function LeasesAfter(item: string, leases: map<string, int>, now: int): map<string, int> {
    if Expired(item, leases, now) then leases - {item}
    else if !Tokenised(item) && UuidShaped(item) && item !in leases then leases[item := now + LeaseSeconds]
    else leases
  }

  datatype Swept = Swept(moved: seq<string>, kept: seq<string>, leases: map<string, int>)

  function Sweep(items: seq<string>, leases: map<string, int>, now: int): Swept
    decreases |items|
  {
    if items == [] then Swept([], [], leases)
    else
      var rest := Sweep(items[1..], LeasesAfter(items[0], leases, now), now);
      if Expired(items[0], leases, now) then rest.(moved := [items[0]] + rest.moved)
      else rest.(kept := [items[0]] + rest.kept)
  }

  /** What the loop has sorted so far, followed by the sweep of the rest. */
  function Joined(moved: seq<string>, kept: seq<string>, rest: Swept): Swept {
    Swept(moved + rest.moved, kept + rest.kept, rest.leases)
  }

  lemma SweepStep(items: seq<string>, leases: map<string, int>, now: int)
    requires items != []
    ensures Sweep(items, leases, now) ==
            if Expired(items[0], leases, now)
            then Joined([items[0]], [], Sweep(items[1..], LeasesAfter(items[0], leases, now), now))
            else Joined([], [items[0]], Sweep(items[1..], LeasesAfter(items[0], leases, now), now))
  {}

  lemma JoinedStep(moved: seq<string>, kept: seq<string>, item: string, rest: Swept)
    ensures Joined(moved, kept, Joined([item], [], rest)) == Joined(moved + [item], kept, rest)
    ensures Joined(moved, kept, Joined([], [item], rest)) == Joined(moved, kept + [item], rest)
  {}

  function Ids(items: seq<string>): (r: seq<string>)
    ensures |r| == |items| && forall i | 0 <= i < |items| :: r[i] == IdOf(items[i])
  {
    seq(|items|, i requires 0 <= i < |items| => IdOf(items[i]))
  }

  function Recover(q: Q, now: int): Q {
    var s := Sweep(q.processing, q.leases, now);
    q.(pending := q.pending + Ids(s.moved), processing := s.kept, leases := s.leases)
  }

  // --------------------------------------------------------- PromoteScheduled

  predicate Due(q: Q, id: string, now: int) {
    id in q.scheduled && q.scheduled[id] <= now
  }

  /** `ids` is what ZRANGEBYSCORE returned: due ids by score, at most 100, none skipped. */
  predicate IsPromotion(q: Q, now: int, ids: seq<string>) {
    && |ids| <= PromoteLimit
    && (forall i | 0 <= i < |ids| :: Due(q, ids[i], now))
    && (forall i, j | 0 <= i < j < |ids| :: ids[i] != ids[j] && q.scheduled[ids[i]] <= q.scheduled[ids[j]])
    && (forall id | id in q.scheduled && Due(q, id, now) && id !in ids ::
          |ids| == PromoteLimit && forall i | 0 <= i < |ids| :: q.scheduled[ids[i]] <= q.scheduled[id])
  }

  function PushAll(pending: seq<string>, ids: seq<string>): seq<string>
    decreases |ids|
  {
    if ids == [] then pending else PushAll([ids[0]] + pending, ids[1..])
  }

  function Members(ids: seq<string>): set<string> {
    set id | id in ids
  }

  function Promote(q: Q, ids: seq<string>): Q {
    q.(scheduled := q.scheduled - Members(ids), pending := PushAll(q.pending, ids))
  }

  // ------------------------------------------------------------- conservation

  /** Every email id the queue still knows. */
  function Held(q: Q): set<string> {
    (set id | id in q.pending) + (set id | id in Ids(q.processing)) + q.scheduled.Keys + (set id | id in q.dead)
  }

  lemma {:induction false} RemoveFirstDrops(s: seq<string>, x: string)
    ensures forall y :: y in RemoveFirst(s, x) ==> y in s
    ensures forall y | y != x :: y in s ==> y in RemoveFirst(s, x)
  {
    if s != [] {
      RemoveFirstDrops(s[1..], x);
    }
  }

  /** Only the first occurrence goes; everything else stays in order. */
  lemma {:induction false} RemoveFirstIsExact(s: seq<string>, x: string) returns (i: nat)
    requires x in s
    ensures i < |s| && s[i] == x && x !in s[..i] && RemoveFirst(s, x) == s[..i] + s[i + 1..]
  {
    if s[0] == x {
      i := 0;
    } else {
      var k := RemoveFirstIsExact(s[1..], x);
      i := k + 1;
      assert s[..i] == [s[0]] + s[1..][..k];
    }
  }

  lemma InIds(items: seq<string>, id: string)
    ensures id in Ids(items) <==> exists x :: x in items && IdOf(x) == id
  {
    if id in Ids(items) {
      var i :| 0 <= i < |items| && Ids(items)[i] == id;
      assert items[i] in items;
    }
    if x :| x in items && IdOf(x) == id {
      var i :| 0 <= i < |items| && items[i] == x;
      assert Ids(items)[i] == id;
    }
  }

  /** Giving up a receipt affects the id it carries and no other. */
  lemma DropLosesAtMostItsId(q: Q, token: string, id: string)
    requires Sep !in token
    ensures Held(Drop(q, Encode(token, id))) <= Held(q) <= Held(Drop(q, Encode(token, id))) + {id}
  {
    var r := Encode(token, id);
    DecodingReturnsTheId(token, id);
    RemoveFirstDrops(q.processing, r);
    forall x | x in Ids(q.processing) || x in Ids(RemoveFirst(q.processing, r))
      ensures x in Ids(RemoveFirst(q.processing, r)) ==> x in Ids(q.processing)
      ensures x in Ids(q.processing) && x != id ==> x in Ids(RemoveFirst(q.processing, r))
    {
      InIds(q.processing, x);
      InIds(RemoveFirst(q.processing, r), x);
    }
  }

  lemma AckLosesAtMostItsId(q: Q, token: string, id: string)
    requires Sep !in token
    ensures Held(Ack(q, token, id)) <= Held(q) <= Held(Ack(q, token, id)) + {id}
  {
    DropLosesAtMostItsId(q, token, id);
  }

  lemma DequeueKeepsHeld(q: Q, token: string, lease: int)
    requires Sep !in token
    ensures Held(Dequeue(q, token, lease)) == Held(q)
  {
    if q.pending != [] {
      var n := |q.pending| - 1;
      var id := q.pending[n];
      DecodingReturnsTheId(token, id);
      assert q.pending == q.pending[..n] + [id];
      assert Ids([Encode(token, id)] + q.processing) == [id] + Ids(q.processing);
    }
  }

  lemma RescheduleKeepsHeld(q: Q, token: string, id: string, at: int)
    requires Sep !in token
    ensures Held(RescheduleReceipt(q, token, id, at)) == Held(q)
  {
    var r := Encode(token, id);
    if r in q.processing {
      DropLosesAtMostItsId(q, token, id);
      DecodingReturnsTheId(token, id);
      InIds(q.processing, id);
      HeldAfterSchedule(Drop(q, r), id, at);
    }
  }

  lemma HeldAfterSchedule(q: Q, id: string, at: int)
    ensures Held(Schedule(q, id, at)) == Held(q) + {id}
  {}

  /** A retry keeps every id, unless it pushes old entries off a full dead list. */
  lemma RequeueKeepsHeld(q: Q, token: string, id: string, now: int, count: bool)
    requires Sep !in token
    ensures Held(Requeue(q, token, id, now, count)) <= Held(q)
    ensures forall x | x in Held(q) :: x in Held(Requeue(q, token, id, now, count))
              || (DeadLetters(q, id, count) && |q.dead| >= DeadCap && x in q.dead[DeadCap - 1..])
  {
    var r := Encode(token, id);
    if r in q.processing {
      DropLosesAtMostItsId(q, token, id);
      DecodingReturnsTheId(token, id);
      InIds(q.processing, id);
      var d := Drop(q, r);
      if DeadLetters(q, id, count) {
        var pushed := [id] + d.dead;
        if |pushed| > DeadCap {
          assert pushed == pushed[..DeadCap] + q.dead[DeadCap - 1..];
        }
        assert forall x | x in q.dead :: x in pushed;
      }
    }
  }

  lemma ReplayKeepsHeld(q: Q, id: string)
    ensures Held(ReplayDead(q, id)) == Held(q)
  {
    RemoveFirstDrops(q.dead, id);
  }

  lemma {:induction false} PushAllHolds(pending: seq<string>, ids: seq<string>)
    ensures forall x :: x in PushAll(pending, ids) <==> x in pending || x in ids
    decreases |ids|
  {
    if ids != [] {
      PushAllHolds([ids[0]] + pending, ids[1..]);
      assert ids == [ids[0]] + ids[1..];
    }
  }

  /** Of the ids pushed, the first lies nearest the end that ids are taken from. */
  lemma {:induction false} PushAllReverses(pending: seq<string>, ids: seq<string>)
    ensures |PushAll(pending, ids)| == |ids| + |pending| && PushAll(pending, ids)[|ids|..] == pending
    ensures forall i | 0 <= i < |ids| :: PushAll(pending, ids)[i] == ids[|ids| - 1 - i]
    decreases |ids|
  {
    if ids != [] {
      PushAllReverses([ids[0]] + pending, ids[1..]);
    }
  }

  lemma PromoteKeepsHeld(q: Q, now: int, ids: seq<string>)
    requires IsPromotion(q, now, ids)
    ensures Held(Promote(q, ids)) == Held(q)
  {
    PushAllHolds(q.pending, ids);
    assert forall x | x in ids :: Due(q, x, now);
  }

  // -- Recover moves exactly the expired receipts

  lemma IdsOfCons(x: string, items: seq<string>)
    ensures Ids([x] + items) == [IdOf(x)] + Ids(items)
  {}

  lemma {:induction false} SweepSplitsIds(items: seq<string>, leases: map<string, int>, now: int)
    ensures var s := Sweep(items, leases, now);
            multiset(Ids(s.moved)) + multiset(Ids(s.kept)) == multiset(Ids(items))
    decreases |items|
  {
    if items != [] {
      var x := items[0];
      var rest := Sweep(items[1..], LeasesAfter(x, leases, now), now);
      SweepSplitsIds(items[1..], LeasesAfter(x, leases, now), now);
      assert items == [x] + items[1..];
      IdsOfCons(x, items[1..]);
      IdsOfCons(x, rest.moved);
      IdsOfCons(x, rest.kept);
    }
  }

  /** Recovery loses and duplicates nothing: the ids over pending and processing are the
      same multiset before and after. */
  lemma RecoverConservesIds(q: Q, now: int)
    ensures var q' := Recover(q, now);
            multiset(q'.pending) + multiset(Ids(q'.processing)) == multiset(q.pending) + multiset(Ids(q.processing))
    ensures Held(Recover(q, now)) == Held(q)
  {
    var q' := Recover(q, now);
    var s := Sweep(q.processing, q.leases, now);
    SweepSplitsIds(q.processing, q.leases, now);
    forall x ensures x in Held(q') <==> x in Held(q) {
      var before := multiset(q.pending) + multiset(Ids(q.processing));
      var after := multiset(q'.pending) + multiset(Ids(q'.processing));
      assert x in before <==> x in q.pending || x in Ids(q.processing);
      assert x in after <==> x in q'.pending || x in Ids(q'.processing);
    }
  }

  /** The expired items, or the others, in order. Of an item that is there more than once only
      the first counts as expired: when it moves, its lease goes. */
  function Keep(items: seq<string>, seen: set<string>, leases: map<string, int>, now: int, expired: bool): seq<string> {
    if items == [] then []
    else
      (if (Expired(items[0], leases, now) && items[0] !in seen) == expired then [items[0]] else [])
      + Keep(items[1..], seen + {items[0]}, leases, now, expired)
  }

  /** The leases at work differ from those at the start only on items already seen, and none of
      these is expired any more. */
  ghost predicate Agrees(held: map<string, int>, leases: map<string, int>, seen: set<string>, now: int) {
    forall x :: if x in seen then !Expired(x, held, now) else Expired(x, held, now) == Expired(x, leases, now)
  }

  /** Whatever the list holds, recovery moves exactly the first occurrences of expired items and
      keeps everything else, both in their original order. */
  lemma RecoverMovesExactlyTheExpired(items: seq<string>, leases: map<string, int>, now: int)
    ensures Sweep(items, leases, now).moved == Keep(items, {}, leases, now, true)
    ensures Sweep(items, leases, now).kept == Keep(items, {}, leases, now, false)
  {
    SweepIsKeep(items, {}, leases, leases, now);
  }

  lemma {:induction false} SweepIsKeep(items: seq<string>, seen: set<string>, held: map<string, int>,
                                       leases: map<string, int>, now: int)
    requires Agrees(held, leases, seen, now)
    ensures Sweep(items, held, now).moved == Keep(items, seen, leases, now, true)
    ensures Sweep(items, held, now).kept == Keep(items, seen, leases, now, false)
    decreases |items|
  {
    if items != [] {
      SweepIsKeep(items[1..], seen + {items[0]}, LeasesAfter(items[0], held, now), leases, now);
    }
  }
}
