/** Concurrent calls of `send` for one team on one UTC day: idempotency keys, the daily quota,
    and the two writes that may fail, land although they report an error, or land later; the
    process of a call may stop between any two steps
    (internal/service/email_service.go:222-402). */
module Sending {
  import opened EmailDomain
  import Common

  datatype Row = Row(id: nat, key: Option<string>, hash: string)

  datatype Result = Created(id: nat) | Reused(id: nat) | Conflict | Error

  datatype Pc =
    | Start
    | Checked
    | Saving
    | Resolving
    | Saved
    | Releasing(result: Result)
    | Done(result: Result)
    | Stopped

  /** A write over the network. `Refused` and `Open` reported an error: the first never takes
      effect, the second still may. `told` is false if the write landed with an error. */
  datatype Wire = Unsent | Refused | Open | Landed(told: bool)

  datatype Call = Call(
    id: nat, key: Option<string>, hash: string, units: nat, limit: int, pc: Pc, reserved: bool,
    row: Wire,    // INSERT INTO emails
    push: Wire)   // the queue write

  datatype State = State(rows: seq<Row>, counter: int, calls: seq<Call>)

  datatype Fault = Ok | FailsBefore | FailsAfter | FailsOpen

  datatype Label =
    | Begins(id: nat, key: Option<string>, hash: string, units: nat, limit: int)
    | Refuses(i: nat)                    // a check failed, before or after the key was looked up
    | Looks(i: nat)
    | Reserves(i: nat)
    | Creates(i: nat, fault: Fault)
    | Resolves(i: nat, fails: bool)
    | Enqueues(i: nat, fault: Fault)
    | Releases(i: nat)
    | Stops(i: nat)                      // the process dies; nothing is released
    | LateInsert(i: nat)                 // an open write takes effect
    | LateEnqueue(i: nat)

  /** SELECT ... WHERE idempotency_key = key */
  function Find(rows: seq<Row>, key: Option<string>): Option<Row> {
    if rows == [] || key.None? then None
    else if rows[0].key == key then Some(rows[0])
    else Find(rows[1..], key)
  }

  /** What an existing row under the caller's key means for the caller. */
  function Existing(r: Row, hash: string): Result {
    if r.hash == hash then Reused(r.id) else Conflict
  }

  function With(s: State, i: nat, c: Call): State
    requires i < |s.calls|
  {
    s.(calls := s.calls[i := c])
  }

  predicate Enabled(s: State, l: Label) {
    if l.Begins? then forall c | c in s.calls :: c.id != l.id
    else l.i < |s.calls| && MayStep(s.calls[l.i], l)
  }

  predicate MayStep(c: Call, l: Label) {
    match l
    case Begins(_, _, _, _, _) => false
    case Refuses(_) => c.pc.Start? || c.pc.Checked?
    case Looks(_) => c.pc.Start?
    case Reserves(_) => c.pc.Checked?
    case Creates(_, _) => c.pc.Saving?
    case Resolves(_, _) => c.pc.Resolving?
    case Enqueues(_, _) => c.pc.Saved?
    case Releases(_) => c.pc.Releasing?
    case Stops(_) => !c.pc.Done? && !c.pc.Stopped?
    case LateInsert(_) => c.row.Open?
    case LateEnqueue(_) => c.push.Open?
  }

  function Look(s: State, c: Call): Pc {
    var found := Find(s.rows, c.key);
    if found.Some? then Done(Existing(found.value, c.hash)) else Checked
  }

  function Reserve(s: State, i: nat, c: Call): State
    requires i < |s.calls|
  {
    if c.limit <= 0 then With(s, i, c.(pc := Saving))
    else if c.units > 0 && s.counter + c.units > c.limit then With(s, i, c.(pc := Done(Error)))
    else With(s, i, c.(pc := Saving, reserved := true)).(counter := s.counter + c.units)
  }

  /** The row a call inserts. */
  function Own(c: Call): Row {
    Row(c.id, c.key, c.hash)
  }

  function Sent(fault: Fault): Wire {
    match fault
    case Ok => Landed(true)
    case FailsBefore => Refused
    case FailsAfter => Landed(false)
    case FailsOpen => Open
  }

  /** The unique index on (team, key) makes a second row under a key fail for good. */
  function InsertWire(s: State, c: Call, wire: Wire): Wire {
    if wire.Landed? && Find(s.rows, c.key).Some? then Refused else wire
  }

  function Inserting(s: State, i: nat, c: Call): State
    requires i < |s.calls|
  {
    With(if c.row.Landed? then s.(rows := s.rows + [Own(c)]) else s, i, c)
  }

  function Create(s: State, i: nat, c: Call, fault: Fault): State
    requires i < |s.calls|
  {
    var wire := InsertWire(s, c, Sent(fault));
    var next := if wire == Landed(true) then Saved else if c.key.Some? then Resolving else Releasing(Error);
    Inserting(s, i, c.(row := wire, pc := next))
  }

  function Resolve(s: State, c: Call, fails: bool): Pc {
    var found := Find(s.rows, c.key);
    Releasing(if fails || found.None? then Error else Existing(found.value, c.hash))
  }

  function Release(s: State, i: nat, c: Call): State
    requires i < |s.calls| && c.pc.Releasing?
  {
    var s' := if c.reserved then s.(counter := Common.Max(0, s.counter - c.units)) else s;
    With(s', i, c.(pc := Done(c.pc.result), reserved := false))
  }

  function Apply(s: State, l: Label): State
    requires Enabled(s, l)
  {
    match l
    case Begins(id, key, hash, units, limit) =>
      s.(calls := s.calls + [Call(id, key, hash, units, limit, Start, false, Unsent, Unsent)])
    case Refuses(i) => With(s, i, s.calls[i].(pc := Done(Error)))
    case Looks(i) => With(s, i, s.calls[i].(pc := Look(s, s.calls[i])))
    case Reserves(i) => Reserve(s, i, s.calls[i])
    case Creates(i, fault) => Create(s, i, s.calls[i], fault)
    case Resolves(i, fails) => With(s, i, s.calls[i].(pc := Resolve(s, s.calls[i], fails)))
    case Enqueues(i, fault) =>
      var c := s.calls[i];
      With(s, i, c.(push := Sent(fault), pc := if fault == Ok then Done(Created(c.id)) else Releasing(Error)))
    case Releases(i) => Release(s, i, s.calls[i])
    case Stops(i) => With(s, i, s.calls[i].(pc := Stopped))
    case LateInsert(i) =>
      var c := s.calls[i];
      Inserting(s, i, c.(row := InsertWire(s, c, Landed(false))))
    case LateEnqueue(i) => With(s, i, s.calls[i].(push := Landed(false)))
  }

  const Empty := State([], 0, [])

  ghost predicate IsTrace(ss: seq<State>, ls: seq<Label>) {
    && |ss| == |ls| + 1 && ss[0] == Empty
    && forall k | 0 <= k < |ls| :: Enabled(ss[k], ls[k]) && ss[k + 1] == Apply(ss[k], ls[k])
  }

  /** The queue was given the email of some call. */
  predicate InQueue(s: State, id: nat) {
    exists c | c in s.calls :: c.id == id && c.push.Landed?
  }

  // --------------------------------------------------------------------- quota

  /** The caller was told that its email is queued. */
  predicate IsQueued(c: Call) {
    c.pc.Done? && c.pc.result.Created?
  }

  /** What a call holds of the daily counter. */
  function Weight(c: Call): nat {
    if c.reserved && (IsQueued(c) || !c.pc.Done?) then c.units else 0
  }

  /** Recipients of an email that the queue was given. */
  function QueuedUnits(c: Call): nat {
    if c.push.Landed? && c.limit > 0 then c.units else 0
  }

  /** Reservations of calls under way, or stopped, whose email the queue was not given. */
  function InFlightUnits(c: Call): nat {
    if !c.push.Landed? && c.reserved && !c.pc.Done? then c.units else 0
  }

  /** Units given back although the queue has the email. */
  function UncountedUnits(c: Call): nat {
    if c.push.Landed? && c.pc.Done? && !IsQueued(c) && c.limit > 0 then c.units else 0
  }

  function Sum(calls: seq<Call>, f: Call -> nat): nat {
    if calls == [] then 0 else f(calls[0]) + Sum(calls[1..], f)
  }

  function Total(calls: seq<Call>): nat {
    if calls == [] then 0 else Weight(calls[0]) + Total(calls[1..])
  }

  lemma {:induction false} TotalUpdate(calls: seq<Call>, i: nat, c: Call)
    requires i < |calls|
    ensures Total(calls[i := c]) == Total(calls) - Weight(calls[i]) + Weight(c) && Weight(calls[i]) <= Total(calls)
  {
    if i == 0 {
      assert calls[i := c][1..] == calls[1..];
    } else {
      assert calls[i := c][1..] == calls[1..][i - 1 := c];
      TotalUpdate(calls[1..], i - 1, c);
    }
  }

  lemma {:induction false} TotalSnoc(calls: seq<Call>, c: Call)
    ensures Total(calls + [c]) == Total(calls) + Weight(c)
  {
    if calls != [] {
      assert (calls + [c])[1..] == calls[1..] + [c];
      TotalSnoc(calls[1..], c);
    }
  }

  predicate QuotaOk(c: Call) {
    && (c.pc.Start? || c.pc.Checked? ==> !c.reserved)
    && (c.pc.Done? && !c.pc.result.Created? ==> !c.reserved)
    && (IsQueued(c) || c.pc.Saving? || c.pc.Resolving? || c.pc.Saved? || c.pc.Releasing? ==>
        c.reserved == (c.limit > 0))
    && (c.pc.Stopped? && !c.push.Unsent? ==> c.reserved == (c.limit > 0))
    && (c.pc.Releasing? ==> !c.pc.result.Created?)
    && (!c.push.Unsent? ==> c.pc.Releasing? || c.pc.Done? || c.pc.Stopped?)
    && (c.push == Landed(true) <==> IsQueued(c))
  }

  ghost predicate QuotaInv(s: State) {
    && s.counter == Total(s.calls)
    && (forall c | c in s.calls :: QuotaOk(c))
  }

  /** One call moves on, and the counter follows its weight. */
  lemma MoveKeepsQuota(s: State, s': State, i: nat, c: Call)
    requires QuotaInv(s) && i < |s.calls| && s'.calls == s.calls[i := c] && QuotaOk(c)
    requires s'.counter == s.counter - Weight(s.calls[i]) + Weight(c)
    ensures QuotaInv(s')
  {
    TotalUpdate(s.calls, i, c);
    forall d | d in s'.calls ensures QuotaOk(d) {
      assert d == c || d in s.calls;
    }
  }

  lemma SteppingIsQuotaOk(s: State, l: Label)
    requires QuotaInv(s) && Enabled(s, l) && !l.Begins?
    ensures var s', i := Apply(s, l), l.i;
            && s'.calls == s.calls[i := s'.calls[i]] && QuotaOk(s'.calls[i])
            && s'.counter == s.counter - Weight(s.calls[i]) + Weight(s'.calls[i])
  {
    var c := s.calls[l.i];
    assert c in s.calls && QuotaOk(c);
    match l
    case Creates(_, fault) => CreatingIsQuotaOk(s, l.i, c, fault);
    case Releases(_) => TotalUpdate(s.calls, l.i, c);
    case Refuses(_) =>
    case Looks(_) =>
    case Reserves(_) =>
    case Resolves(_, _) =>
    case Enqueues(_, _) =>
    case Stops(_) =>
    case LateInsert(_) =>
    case LateEnqueue(_) =>
  }

  lemma CreatingIsQuotaOk(s: State, i: nat, c: Call, fault: Fault)
    requires i < |s.calls| && c == s.calls[i] && QuotaOk(c) && c.pc.Saving?
    ensures var s' := Create(s, i, c, fault);
            && s'.calls == s.calls[i := s'.calls[i]] && QuotaOk(s'.calls[i])
            && s'.counter == s.counter && Weight(s'.calls[i]) == Weight(c)
  {}

  lemma StepKeepsQuota(s: State, l: Label)
    requires QuotaInv(s) && Enabled(s, l)
    ensures QuotaInv(Apply(s, l))
  {
    var s' := Apply(s, l);
    if l.Begins? {
      TotalSnoc(s.calls, s'.calls[|s.calls|]);
    } else {
      SteppingIsQuotaOk(s, l);
      MoveKeepsQuota(s, s', l.i, s'.calls[l.i]);
    }
  }

  // --------------------------------------------------------------- idempotency

  predicate Answered(c: Call) {
    c.pc.Releasing? || c.pc.Done?
  }

  predicate Inserted(rows: seq<Row>, id: nat) {
    exists k | 0 <= k < |rows| :: rows[k].id == id
  }

  /** Where a call can be, given how its two writes went. */
  predicate WiresOk(c: Call) {
    && (c.pc.Start? || c.pc.Checked? || c.pc.Saving? ==> c.row.Unsent?)
    && (c.row == Landed(true) ==> c.pc.Saved? || IsQueued(c) || c.pc.Stopped? || (Answered(c) && c.pc.result.Error?))
    && (c.row == Landed(true) && c.push.Unsent? ==> c.pc.Saved? || c.pc.Stopped?)
    && (c.row.Refused? || c.row.Open? || c.row == Landed(false) ==>
          c.pc.Resolving? || c.pc.Stopped? || (Answered(c) && !c.pc.result.Created?))
    && (c.pc.Saved? || IsQueued(c) || !c.push.Unsent? ==> c.row == Landed(true))
  }

  /** How a call's position and answer relate to the table. */
  predicate KeyOk(rows: seq<Row>, c: Call) {
    && WiresOk(c)
    && (c.row.Landed? ==> Own(c) in rows && (c.key.Some? ==> Find(rows, c.key) == Some(Own(c))))
    && (Inserted(rows, c.id) ==> c.row.Landed?)
    && (Answered(c) && c.pc.result.Created? ==> c.pc.Done? && c.pc.result.id == c.id)
    && (Answered(c) && c.pc.result.Reused? ==>
          c.key.Some? && Find(rows, c.key) == Some(Row(c.pc.result.id, c.key, c.hash)))
  }

  ghost predicate KeyInv(s: State) {
    && (forall i, j | 0 <= i < j < |s.calls| :: s.calls[i].id != s.calls[j].id)
    && (forall c | c in s.calls :: KeyOk(s.rows, c))
    && (forall i, j | 0 <= i < j < |s.rows| && s.rows[i].key.Some? :: s.rows[i].key != s.rows[j].key)
    && (forall r | r in s.rows :: exists i | 0 <= i < |s.calls| :: s.calls[i].id == r.id)
  }

  lemma {:induction false} FindSnoc(rows: seq<Row>, r: Row, key: Option<string>)
    ensures Find(rows + [r], key) ==
            if Find(rows, key).Some? then Find(rows, key)
            else if key.Some? && r.key == key then Some(r) else None
  {
    if rows != [] {
      assert (rows + [r])[1..] == rows[1..] + [r];
      FindSnoc(rows[1..], r, key);
    }
  }

  lemma {:induction false} FindMeans(rows: seq<Row>, key: Option<string>)
    ensures Find(rows, key).Some? ==> Find(rows, key).value in rows && Find(rows, key).value.key == key && key.Some?
    ensures key.Some? && Find(rows, key).None? ==> forall r | r in rows :: r.key != key
  {
    if rows != [] {
      FindMeans(rows[1..], key);
    }
  }

  lemma InsertedSnoc(rows: seq<Row>, r: Row, id: nat)
    ensures Inserted(rows + [r], id) <==> Inserted(rows, id) || r.id == id
  {
    var all := rows + [r];
    if Inserted(rows, id) {
      var k :| 0 <= k < |rows| && rows[k].id == id;
      assert all[k].id == id;
    }
    if r.id == id { assert all[|rows|].id == id; }
  }

  /** A row added by one call leaves every other call as it was. */
  lemma OthersUnaffected(rows: seq<Row>, r: Row, d: Call)
    requires KeyOk(rows, d) && r.id != d.id
    ensures KeyOk(rows + [r], d)
  {
    FindSnoc(rows, r, d.key);
    InsertedSnoc(rows, r, d.id);
  }

  /** One call moves on, and nobody's row changes. */
  lemma MoveKeepsKeys(s: State, s': State, i: nat, c: Call)
    requires KeyInv(s) && i < |s.calls| && s'.calls == s.calls[i := c] && s'.rows == s.rows
    requires c.id == s.calls[i].id && KeyOk(s.rows, c)
    ensures KeyInv(s')
  {
    forall d | d in s'.calls ensures KeyOk(s'.rows, d) {
      assert d == c || d in s.calls;
    }
    forall r | r in s'.rows ensures exists k | 0 <= k < |s'.calls| :: s'.calls[k].id == r.id {
      var k :| 0 <= k < |s.calls| && s.calls[k].id == r.id;
      assert s'.calls[k].id == r.id;
    }
  }

  /** A row lands, at once or late. */
  lemma LandingKeepsKeys(s: State, s': State, i: nat, c: Call)
    requires KeyInv(s) && i < |s.calls| && !s.calls[i].row.Landed? && WiresOk(c) && c.row.Landed?
    requires Find(s.rows, c.key).None? && Own(c) == Own(s.calls[i])
    requires Answered(c) ==> !c.pc.result.Created? && !c.pc.result.Reused?
    requires s' == Inserting(s, i, c)
    ensures KeyInv(s')
  {
    FindSnoc(s.rows, Own(c), c.key);
    FindMeans(s.rows, c.key);
    forall k | 0 <= k < |s.calls| ensures KeyOk(s'.rows, s'.calls[k]) {
      if k != i {
        assert s.calls[k] in s.calls;
        OthersUnaffected(s.rows, Own(c), s.calls[k]);
      } else {
        assert s'.rows[|s.rows|] == Own(c);
      }
    }
    forall r | r in s'.rows ensures exists k | 0 <= k < |s'.calls| :: s'.calls[k].id == r.id {
      if r in s.rows {
        var k :| 0 <= k < |s.calls| && s.calls[k].id == r.id;
        assert s'.calls[k].id == r.id;
      } else {
        assert s'.calls[i].id == r.id;
      }
    }
  }

  lemma FreshIdsHaveNoRow(s: State, id: nat)
    requires KeyInv(s) && forall c | c in s.calls :: c.id != id
    ensures !Inserted(s.rows, id)
  {
    forall k | 0 <= k < |s.rows| ensures s.rows[k].id != id {
      assert s.rows[k] in s.rows;
      var i :| 0 <= i < |s.calls| && s.calls[i].id == s.rows[k].id;
      assert s.calls[i] in s.calls;
    }
  }

  lemma BeginKeepsKeys(s: State, c: Call)
    requires KeyInv(s) && c.pc.Start? && c.row.Unsent? && c.push.Unsent? && forall d | d in s.calls :: d.id != c.id
    ensures KeyInv(s.(calls := s.calls + [c]))
  {
    var s' := s.(calls := s.calls + [c]);
    FreshIdsHaveNoRow(s, c.id);
    forall i, j | 0 <= i < j < |s'.calls| ensures s'.calls[i].id != s'.calls[j].id {
      assert s.calls[i] in s.calls;
    }
    forall d | d in s'.calls ensures KeyOk(s.rows, d) {
      assert d == c || d in s.calls;
    }
    forall r | r in s'.rows ensures exists k | 0 <= k < |s'.calls| :: s'.calls[k].id == r.id {
      var k :| 0 <= k < |s.calls| && s.calls[k].id == r.id;
      assert s'.calls[k].id == r.id;
    }
  }

  /** The label makes the caller's row land. */
  predicate Lands(s: State, l: Label)
    requires Enabled(s, l)
  {
    && !l.Begins? && Find(s.rows, s.calls[l.i].key).None?
    && ((l.Creates? && Sent(l.fault).Landed?) || l.LateInsert?)
  }

  lemma ReadingIsKeyOk(s: State, l: Label)
    requires KeyInv(s) && Enabled(s, l) && (l.Looks? || l.Resolves?)
    ensures KeyOk(s.rows, Apply(s, l).calls[l.i])
  {
    var c := s.calls[l.i];
    assert c in s.calls && KeyOk(s.rows, c);
    FindMeans(s.rows, c.key);
  }

  /** Every step but a landing insert leaves the rows alone and the caller consistent. */
  lemma SteppingIsKeyOk(s: State, l: Label)
    requires KeyInv(s) && Enabled(s, l) && !l.Begins? && !Lands(s, l)
    ensures KeyOk(s.rows, Apply(s, l).calls[l.i])
  {
    var c := s.calls[l.i];
    assert c in s.calls && KeyOk(s.rows, c);
    match l
    case Looks(_) => ReadingIsKeyOk(s, l);
    case Resolves(_, _) => ReadingIsKeyOk(s, l);
    case Refuses(_) =>
    case Reserves(_) =>
    case Creates(_, _) =>
    case Enqueues(_, _) =>
    case Releases(_) =>
    case Stops(_) =>
    case LateInsert(_) =>
    case LateEnqueue(_) =>
  }

  lemma SteppingFrame(s: State, l: Label)
    requires Enabled(s, l) && !l.Begins? && !Lands(s, l)
    ensures var s', i := Apply(s, l), l.i;
            s'.calls == s.calls[i := s'.calls[i]] && s'.rows == s.rows && s'.calls[i].id == s.calls[i].id
  {}

  lemma StepKeepsKeys(s: State, l: Label)
    requires KeyInv(s) && Enabled(s, l)
    ensures KeyInv(Apply(s, l))
  {
    var s' := Apply(s, l);
    if l.Begins? {
      BeginKeepsKeys(s, s'.calls[|s.calls|]);
    } else if Lands(s, l) {
      assert s.calls[l.i] in s.calls && KeyOk(s.rows, s.calls[l.i]);
      LandingKeepsKeys(s, s', l.i, s'.calls[l.i]);
    } else {
      SteppingIsKeyOk(s, l);
      SteppingFrame(s, l);
      MoveKeepsKeys(s, s', l.i, s'.calls[l.i]);
    }
  }

  lemma {:induction false} InvHolds(ss: seq<State>, ls: seq<Label>, k: nat)
    requires IsTrace(ss, ls) && k < |ss|
    ensures QuotaInv(ss[k]) && KeyInv(ss[k])
  {
    if k > 0 {
      InvHolds(ss, ls, k - 1);
      StepKeepsQuota(ss[k - 1], ls[k - 1]);
      StepKeepsKeys(ss[k - 1], ls[k - 1]);
    }
  }

  // ------------------------------------------------------------------ theorems

  predicate Succeeded(c: Call) {
    c.pc.Done? && (c.pc.result.Created? || c.pc.result.Reused?)
  }

  /** Calls under one key: every success answers with the one row of the key, at most one
      call reports that it created it, and a different request never succeeds. */
  lemma OneKeyOneEmail(ss: seq<State>, ls: seq<Label>, k: nat, i: nat, j: nat)
    requires IsTrace(ss, ls) && k < |ss| && i < |ss[k].calls| && j < |ss[k].calls|
    requires ss[k].calls[i].key == ss[k].calls[j].key && ss[k].calls[i].key.Some?
    requires Succeeded(ss[k].calls[i]) && Succeeded(ss[k].calls[j])
    ensures ss[k].calls[i].pc.result.id == ss[k].calls[j].pc.result.id
    ensures ss[k].calls[i].hash == ss[k].calls[j].hash
    ensures ss[k].calls[i].pc.result.Created? && ss[k].calls[j].pc.result.Created? ==> i == j
  {
    InvHolds(ss, ls, k);
    var c, d := ss[k].calls[i], ss[k].calls[j];
    assert c in ss[k].calls && d in ss[k].calls;
    assert KeyOk(ss[k].rows, c) && KeyOk(ss[k].rows, d);
  }

  lemma OneRowPerKey(ss: seq<State>, ls: seq<Label>, k: nat)
    requires IsTrace(ss, ls) && k < |ss|
    ensures forall i, j | 0 <= i < j < |ss[k].rows| && ss[k].rows[i].key.Some? :: ss[k].rows[i].key != ss[k].rows[j].key
  {
    InvHolds(ss, ls, k);
  }

  lemma {:induction false} KeysAreForever(ss: seq<State>, ls: seq<Label>, i: nat, j: nat, key: Option<string>)
    requires IsTrace(ss, ls) && i <= j < |ss| && Find(ss[i].rows, key).Some?
    ensures Find(ss[j].rows, key) == Find(ss[i].rows, key)
    decreases j
  {
    if i < j {
      KeysAreForever(ss, ls, i, j - 1, key);
      StepKeepsFind(ss[j - 1], ls[j - 1], key);
    }
  }

  lemma StepKeepsFind(s: State, l: Label, key: Option<string>)
    requires Enabled(s, l) && Find(s.rows, key).Some?
    ensures Find(Apply(s, l).rows, key) == Find(s.rows, key)
  {
    if l.Creates? || l.LateInsert? {
      FindSnoc(s.rows, Own(s.calls[l.i]), key);
    }
  }

  /** A retry at any later time answers with the id of the first success, if it succeeds. */
  lemma RetryAnswersTheSameId(ss: seq<State>, ls: seq<Label>, k: nat, i: nat, m: nat, j: nat)
    requires IsTrace(ss, ls) && k <= m < |ss| && i < |ss[k].calls| && j < |ss[m].calls|
    requires ss[k].calls[i].key == ss[m].calls[j].key && ss[k].calls[i].key.Some?
    requires Succeeded(ss[k].calls[i]) && Succeeded(ss[m].calls[j])
    ensures ss[k].calls[i].pc.result.id == ss[m].calls[j].pc.result.id
  {
    InvHolds(ss, ls, k);
    InvHolds(ss, ls, m);
    var c, d := ss[k].calls[i], ss[m].calls[j];
    assert c in ss[k].calls && d in ss[m].calls;
    assert KeyOk(ss[k].rows, c) && KeyOk(ss[m].rows, d);
    KeysAreForever(ss, ls, k, m, c.key);
  }

  lemma {:induction false} WeightsBalance(calls: seq<Call>)
    requires forall c | c in calls :: QuotaOk(c)
    ensures Total(calls) + Sum(calls, UncountedUnits) == Sum(calls, QueuedUnits) + Sum(calls, InFlightUnits)
  {
    if calls != [] {
      assert calls[0] in calls && QuotaOk(calls[0]);
      assert forall c | c in calls[1..] :: c in calls;
      WeightsBalance(calls[1..]);
    }
  }

  lemma {:induction false} SumIsZeroIff(calls: seq<Call>, f: Call -> nat)
    ensures Sum(calls, f) == 0 <==> forall c | c in calls :: f(c) == 0
  {
    if calls != [] {
      SumIsZeroIff(calls[1..], f);
      assert forall c :: c in calls <==> c == calls[0] || c in calls[1..];
    }
  }

  /** The counter and the units given back too early together are the recipients of queued
      emails plus the reservations under way. So the counter alone is that sum if and only if
      no email, with recipients under a limit, was queued by a write that reported an error to
      a call that has ended; and a call that ended in any way but as created holds nothing. */
  lemma QuotaIsConserved(ss: seq<State>, ls: seq<Label>, k: nat, i: nat)
    requires IsTrace(ss, ls) && k < |ss| && i < |ss[k].calls|
    ensures var calls := ss[k].calls;
            && ss[k].counter + Sum(calls, UncountedUnits) == Sum(calls, QueuedUnits) + Sum(calls, InFlightUnits)
            && (ss[k].counter == Sum(calls, QueuedUnits) + Sum(calls, InFlightUnits)
                <==> forall c | c in calls && c.push == Landed(false) && c.pc.Done? && c.limit > 0 :: c.units == 0)
    ensures ss[k].calls[i].pc.Done? && !IsQueued(ss[k].calls[i]) ==>
              Weight(ss[k].calls[i]) == 0 && !ss[k].calls[i].reserved
    ensures IsQueued(ss[k].calls[i]) && ss[k].calls[i].limit > 0 ==>
              Weight(ss[k].calls[i]) == ss[k].calls[i].units
  {
    InvHolds(ss, ls, k);
    WeightsBalance(ss[k].calls);
    SumIsZeroIff(ss[k].calls, UncountedUnits);
    assert ss[k].calls[i] in ss[k].calls;
    forall c | c in ss[k].calls
      ensures UncountedUnits(c) == 0 <==> (c.push == Landed(false) && c.pc.Done? && c.limit > 0 ==> c.units == 0)
    {
      assert QuotaOk(c);
    }
  }

  /** The counter never passes the largest limit that was ever in force. */
  lemma {:induction false} CounterStaysWithinLimits(ss: seq<State>, ls: seq<Label>, k: nat, most: int)
    requires IsTrace(ss, ls) && k < |ss| && most >= 0
    requires forall c | c in ss[k].calls :: c.limit <= most
    ensures 0 <= ss[k].counter <= most
  {
    InvHolds(ss, ls, k);
    if k > 0 {
      var s, l := ss[k - 1], ls[k - 1];
      forall c | c in s.calls ensures c.limit <= most {
        var i :| 0 <= i < |s.calls| && s.calls[i] == c;
        assert ss[k].calls[i].limit == c.limit && ss[k].calls[i] in ss[k].calls;
      }
      CounterStaysWithinLimits(ss, ls, k - 1, most);
      if l.Reserves? { assert s.calls[l.i] in s.calls; }
    }
  }
}
