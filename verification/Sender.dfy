/** One call of `send`, statement by statement, while other calls of the same team run
    (internal/service/email_service.go:222-238, 310-402). */
module Sender {
  import opened EmailDomain
  import opened Sending

  /** What the call does not decide itself; `others` act before each of its steps. */
  datatype World = World(
    refused: bool, refusedLater: bool, saved: Fault, lookupAgainFails: bool, queued: Fault,
    others: nat -> seq<Label>)

  /** Nobody else acts while the call runs. */
  ghost predicate Alone(w: World) {
    forall k :: w.others(k) == []
  }

  predicate Known(rows: seq<Row>, key: Option<string>) {
    key.Some? && exists row | row in rows :: row.key == key
  }

  predicate Carries(c: Call, id: nat, key: Option<string>, hash: string, units: nat, limit: int) {
    c.id == id && c.key == key && c.hash == hash && c.units == units && c.limit == limit
  }

  predicate Exceeds(counter: int, units: nat, limit: int) {
    limit > 0 && units > 0 && counter + units > limit
  }

  /** The rows and the counter are as they were, and the call has written nothing. */
  predicate Untouched(was: State, s: State, i: nat)
    requires i < |s.calls|
  {
    s.rows == was.rows && s.counter == was.counter && s.calls[i].row.Unsent? && s.calls[i].push.Unsent?
  }

  /** What a call that nobody disturbs comes to. A known key answers with its row; a check that
      fails, or a limit that the recipients would pass, answers with an error; otherwise the email
      is created if both writes are answered. The row of a write that reported an error may be
      there all the same, and a second look finds it under its key. */
  ghost predicate Exact(was: State, s: State, i: nat, w: World, r: Result)
    requires i < |s.calls|
  {
    var c := s.calls[i];
    var row := Row(c.id, c.key, c.hash);
    if w.refused then r == Error && Untouched(was, s, i)
    else if Known(was.rows, c.key) then
      && Untouched(was, s, i)
      && forall x | x in was.rows && x.key == c.key :: r == if x.hash == c.hash then Reused(x.id) else Conflict
    else if w.refusedLater || Exceeds(was.counter, c.units, c.limit) then r == Error && Untouched(was, s, i)
    else if w.saved == Ok && w.queued == Ok then
      && r == Created(c.id) && s.rows == was.rows + [row] && c.push == Landed(true)
      && s.counter == was.counter + if c.limit > 0 then c.units else 0
    else if w.saved == Ok then r == Error && s.rows == was.rows + [row] && s.counter == was.counter
    else
      && s.counter == was.counter && c.push.Unsent?
      && s.rows == was.rows + (if w.saved == FailsAfter then [row] else [])
      && r == if w.saved == FailsAfter && c.key.Some? && !w.lookupAgainFails then Reused(c.id) else Error
  }

  predicate Fresh(c: Call) {
    c.row.Unsent? && c.push.Unsent?
  }

  /** What the release gives back. */
  function Held(c: Call): nat {
    if c.reserved then c.units else 0
  }

  /** What the two writes of a call that nobody disturbs come to, with its units reserved. */
  ghost predicate Stored(was: State, s: State, i: nat, w: World, r: Result)
    requires i < |was.calls| && i < |s.calls|
  {
    var c := s.calls[i];
    var row, held := Row(c.id, c.key, c.hash), Held(was.calls[i]);
    if w.saved == Ok && w.queued == Ok then
      r == Created(c.id) && s.rows == was.rows + [row] && c.push == Landed(true) && s.counter == was.counter
    else if w.saved == Ok then r == Error && s.rows == was.rows + [row] && s.counter == was.counter - held
    else
      && s.counter == was.counter - held && c.push.Unsent?
      && s.rows == was.rows + (if w.saved == FailsAfter then [row] else [])
      && r == if w.saved == FailsAfter && c.key.Some? && !w.lookupAgainFails then Reused(c.id) else Error
  }

  predicate OfCall(l: Label, i: nat) {
    !l.Begins? && !l.LateInsert? && !l.LateEnqueue? && l.i == i
  }

  /** What a step of another call, or a write that lands late, leaves alone. */
  ghost predicate Unseen(s: State, s': State, i: nat) {
    && i < |s.calls| <= |s'.calls|
    && s'.calls[i] == s.calls[i].(row := s'.calls[i].row, push := s'.calls[i].push)
    && (Find(s.rows, s.calls[i].key).Some? ==> Find(s'.rows, s.calls[i].key) == Find(s.rows, s.calls[i].key))
    && (s.calls[i].push.Landed? ==> s'.calls[i].push.Landed?)
  }

  lemma OthersAreUnseen(s: State, l: Label, i: nat)
    requires Enabled(s, l) && !OfCall(l, i) && i < |s.calls|
    ensures Unseen(s, Apply(s, l), i)
  {
    if Find(s.rows, s.calls[i].key).Some? { StepKeepsFind(s, l, s.calls[i].key); }
  }

  /** What the invariants say about a call under way. */
  lemma Standing(ss: seq<State>, ls: seq<Label>, k: nat, i: nat)
    requires IsTrace(ss, ls) && k < |ss| && i < |ss[k].calls|
    ensures var s, c := ss[k], ss[k].calls[i];
            && (c.pc.Start? || c.pc.Checked? || c.pc.Saving? ==> Fresh(c))
            && (c.pc.Start? || c.pc.Checked? ==> !c.reserved)
            && (!c.pc.Done? ==> Held(c) <= s.counter)
            && (Find(s.rows, c.key).Some? <==> Known(s.rows, c.key))
            && forall x | x in s.rows && x.key == c.key && c.key.Some? :: Find(s.rows, c.key) == Some(x)
  {
    InvHolds(ss, ls, k);
    var s, c := ss[k], ss[k].calls[i];
    assert c in s.calls && KeyOk(s.rows, c) && QuotaOk(c);
    TotalUpdate(s.calls, i, c);
    FindMeans(s.rows, c.key);
  }

  class Team {
    var s: State
    ghost var ss: seq<State>
    ghost var ls: seq<Label>

    ghost predicate Valid() reads this {
      IsTrace(ss, ls) && s == ss[|ls|]
    }

    constructor ()
      ensures Valid() && s == Empty
    {
      s, ss, ls := Empty, [Empty], [];
    }

    method Perform(l: Label)
      requires Valid() && Enabled(s, l)
      modifies this
      ensures Valid() && s == Apply(old(s), l) && ls == old(ls) + [l]
    {
      s := Apply(s, l);
      ss, ls := ss + [s], ls + [l];
    }

    method Meanwhile(i: nat, labels: seq<Label>)
      requires Valid() && i < |s.calls|
      modifies this
      ensures Valid() && Unseen(old(s), s, i) && old(ls) <= ls
      ensures labels == [] ==> s == old(s)
    {
      var k := 0;
      while k < |labels|
        invariant 0 <= k <= |labels| && Valid() && Unseen(old(s), s, i) && old(ls) <= ls
        invariant k == 0 ==> s == old(s)
      {
        if Enabled(s, labels[k]) && !OfCall(labels[k], i) {
          OthersAreUnseen(s, labels[k], i);
          Perform(labels[k]);
        }
        k := k + 1;
      }
    }

    /** Whatever runs beside it, the call ends with its answer; a success names the one row of
        its key, a conflict means that the key's row belongs to another request, an email is
        reported as created only once the queue has it, and every other exit holds no quota. */
    method Send(id: nat, key: Option<string>, hash: string, units: nat, limit: int, w: World)
      returns (r: Result, i: nat)
      requires Valid() && forall c | c in s.calls :: c.id != id
      modifies this
      ensures Valid() && old(ls) < ls && i < |s.calls| && s.calls[i].id == id && s.calls[i].pc == Done(r)
      ensures r.Created? ==> r.id == id && InQueue(s, id) && Weight(s.calls[i]) == if limit > 0 then units else 0
      ensures !r.Created? ==> Weight(s.calls[i]) == 0
      ensures (r.Created? && key.Some?) || r.Reused? ==> Find(s.rows, key) == Some(Row(r.id, key, hash))
      ensures r.Conflict? ==> Find(s.rows, key).Some? && Find(s.rows, key).value.hash != hash
      ensures w.refused ==> r == Error && s.calls[i].row.Unsent? && s.calls[i].push.Unsent?
      ensures w.refusedLater ==> !r.Created? && s.calls[i].row.Unsent? && s.calls[i].push.Unsent?
      ensures Alone(w) ==> Exact(old(s), s, i, w, r) && Carries(s.calls[i], id, key, hash, units, limit)
    {
      i := |s.calls|;
      Perform(Begins(id, key, hash, units, limit));
      Meanwhile(i, w.others(0));
      r := Run(i, w);
      Outcome(ss, ls, |ls|, i);
      assert s.calls[i] in s.calls;
    }

    method Run(i: nat, w: World) returns (r: Result)
      requires Valid() && i < |s.calls| && s.calls[i].pc.Start?
      modifies this
      ensures Valid() && old(ls) < ls && SameCall(old(s), s, i) && s.calls[i].pc == Done(r)
      ensures r.Created? ==> s.calls[i].push.Landed?
      ensures r.Conflict? ==> ConflictIn(s, i)
      ensures w.refused ==> r == Error && s.calls[i].row.Unsent? && s.calls[i].push.Unsent?
      ensures w.refusedLater ==> !r.Created? && s.calls[i].row.Unsent? && s.calls[i].push.Unsent?
      ensures Alone(w) ==> Exact(old(s), s, i, w, r)
    {
      Standing(ss, ls, |ls|, i);
      if w.refused {
        Perform(Refuses(i));
        return Error;
      }
      Perform(Looks(i));
      if s.calls[i].pc.Done? { return s.calls[i].pc.result; }
      Meanwhile(i, w.others(1));
      r := Admit(i, w);
    }

    /** The checks after the look, and the reservation. */
    method Admit(i: nat, w: World) returns (r: Result)
      requires Valid() && i < |s.calls| && s.calls[i].pc.Checked? && !w.refused
      modifies this
      ensures Valid() && old(ls) < ls && SameCall(old(s), s, i) && s.calls[i].pc == Done(r)
      ensures r.Created? ==> s.calls[i].push.Landed?
      ensures r.Conflict? ==> ConflictIn(s, i)
      ensures w.refusedLater ==> r == Error && s.calls[i].row.Unsent? && s.calls[i].push.Unsent?
      ensures Alone(w) && Find(old(s).rows, old(s).calls[i].key).None? ==> Exact(old(s), s, i, w, r)
    {
      Standing(ss, ls, |ls|, i);
      if w.refusedLater {
        Perform(Refuses(i));
        return Error;
      }
      Perform(Reserves(i));
      if s.calls[i].pc.Done? { return Error; }
      Meanwhile(i, w.others(2));
      r := Store(i, w);
    }

    /** After the reservation: the two writes, and the release if one of them fails. */
    method Store(i: nat, w: World) returns (r: Result)
      requires Valid() && i < |s.calls| && s.calls[i].pc.Saving?
      modifies this
      ensures Valid() && old(ls) < ls && SameCall(old(s), s, i) && s.calls[i].pc == Done(r)
      ensures r.Created? ==> s.calls[i].push.Landed?
      ensures r.Conflict? ==> ConflictIn(s, i)
      ensures Alone(w) && Find(old(s).rows, old(s).calls[i].key).None? ==>
                Stored(old(s), s, i, w, r)
    {
      Standing(ss, ls, |ls|, i);
      FindSnoc(s.rows, Own(s.calls[i]), s.calls[i].key);
      Perform(Creates(i, w.saved));
      Meanwhile(i, w.others(3));
      if s.calls[i].pc.Resolving? {
        Perform(Resolves(i, w.lookupAgainFails));
        Meanwhile(i, w.others(4));
        r := GiveBack(i);
      } else if s.calls[i].pc.Saved? {
        r := Queue(i, w);
      } else {
        r := GiveBack(i);
      }
    }

    method Queue(i: nat, w: World) returns (r: Result)
      requires Valid() && i < |s.calls| && s.calls[i].pc.Saved?
      modifies this
      ensures Valid() && old(ls) < ls && SameCall(old(s), s, i) && s.calls[i].pc == Done(r)
      ensures r.Created? ==> s.calls[i].push.Landed?
      ensures !r.Conflict?
      ensures Alone(w) ==>
                && s.rows == old(s).rows && r == (if w.queued == Ok then Created(s.calls[i].id) else Error)
                && (w.queued == Ok ==> s.counter == old(s).counter && s.calls[i].push == Landed(true))
                && (w.queued != Ok ==> s.counter == old(s).counter - Held(old(s).calls[i]))
    {
      Perform(Enqueues(i, w.queued));
      if w.queued == Ok { return s.calls[i].pc.result; }
      Meanwhile(i, w.others(5));
      r := GiveBack(i);
    }

    /** The deferred release. */
    method GiveBack(i: nat) returns (r: Result)
      requires Valid() && i < |s.calls| && s.calls[i].pc.Releasing?
      modifies this
      ensures Valid() && old(ls) < ls && SameCall(old(s), s, i) && s.calls[i].pc == Done(r)
      ensures r == old(s).calls[i].pc.result && s.rows == old(s).rows
      ensures s.calls[i].push == old(s).calls[i].push && s.calls[i].row == old(s).calls[i].row
      ensures s.counter == old(s).counter - Held(old(s).calls[i])
    {
      Standing(ss, ls, |ls|, i);
      r := s.calls[i].pc.result;
      Perform(Releases(i));
    }
  }

  ghost predicate SameCall(s: State, s': State, i: nat) {
    && i < |s.calls| <= |s'.calls| && s'.calls[i].id == s.calls[i].id && s'.calls[i].key == s.calls[i].key
    && s'.calls[i].hash == s.calls[i].hash && s'.calls[i].units == s.calls[i].units
    && s'.calls[i].limit == s.calls[i].limit
  }

  ghost predicate ConflictIn(s: State, i: nat)
    requires i < |s.calls|
  {
    Find(s.rows, s.calls[i].key).Some? && Find(s.rows, s.calls[i].key).value.hash != s.calls[i].hash
  }

  /** What the invariants say about an answered call. */
  lemma Outcome(ss: seq<State>, ls: seq<Label>, k: nat, i: nat)
    requires IsTrace(ss, ls) && k < |ss| && i < |ss[k].calls| && ss[k].calls[i].pc.Done?
    ensures var s, c := ss[k], ss[k].calls[i];
            && (c.pc.result.Created? ==> c.pc.result.id == c.id && Weight(c) == if c.limit > 0 then c.units else 0)
            && (!c.pc.result.Created? ==> Weight(c) == 0)
            && ((c.pc.result.Created? && c.key.Some?) || c.pc.result.Reused? ==>
                  Find(s.rows, c.key) == Some(Row(c.pc.result.id, c.key, c.hash)))
  {
    InvHolds(ss, ls, k);
    assert ss[k].calls[i] in ss[k].calls;
    assert KeyOk(ss[k].rows, ss[k].calls[i]);
  }
}
