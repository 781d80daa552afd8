/** What an answer of `send` is worth: when an email whose row exists has been given to the
    queue, when it still can be, and when it never will
    (internal/service/email_service.go:222-238, 372-402). */
module SendFates {
  import opened EmailDomain
  import opened Sending

  // ------------------------------------------------------- what the run has shown

  /** The insert of call `j` reported an error. */
  ghost predicate InsertErred(ls: seq<Label>, k: nat, j: nat)
    requires k <= |ls|
  {
    exists m | 0 <= m < k :: ls[m].Creates? && ls[m].i == j && ls[m].fault != Ok
  }

  /** The queue write of call `j` took effect although it reported an error. */
  ghost predicate PushedWithError(ls: seq<Label>, k: nat, j: nat)
    requires k <= |ls|
  {
    exists m | 0 <= m < k :: ls[m] == Enqueues(j, FailsAfter) || ls[m] == LateEnqueue(j)
  }

  /** The queue write of call `j` failed without effect. */
  ghost predicate PushRefused(ls: seq<Label>, k: nat, j: nat)
    requires k <= |ls|
  {
    exists m | 0 <= m < k :: ls[m] == Enqueues(j, FailsBefore)
  }

  ghost predicate PushSent(ls: seq<Label>, k: nat, j: nat)
    requires k <= |ls|
  {
    exists m | 0 <= m < k :: ls[m].Enqueues? && ls[m].i == j
  }

  /** The process of call `j` stopped before its queue write. */
  ghost predicate StoppedBeforePush(ls: seq<Label>, k: nat, j: nat)
    requires k <= |ls|
  {
    (exists m | 0 <= m < k :: ls[m] == Stops(j)) && !PushSent(ls, k, j)
  }

  /** The labels so far and the state of a call tell the same story. */
  ghost predicate HistoryOk(c: Call, ls: seq<Label>, k: nat, j: nat)
    requires k <= |ls|
  {
    && (c.row.Unsent? || c.row == Landed(true) ==> !InsertErred(ls, k, j))
    && (c.row.Open? || c.row == Landed(false) ==> InsertErred(ls, k, j))
    && (c.push.Unsent? <==> !PushSent(ls, k, j))
    && (c.push == Landed(false) <==> PushedWithError(ls, k, j))
    && (c.push.Refused? <==> PushRefused(ls, k, j))
    && (c.pc.Stopped? <==> exists m | 0 <= m < k :: ls[m] == Stops(j))
  }

  lemma OneMoreLabel(ls: seq<Label>, k: nat, j: nat)
    requires k < |ls|
    ensures InsertErred(ls, k + 1, j)
            <==> InsertErred(ls, k, j) || (ls[k].Creates? && ls[k].i == j && ls[k].fault != Ok)
    ensures PushedWithError(ls, k + 1, j)
            <==> PushedWithError(ls, k, j) || ls[k] == Enqueues(j, FailsAfter) || ls[k] == LateEnqueue(j)
    ensures PushRefused(ls, k + 1, j) <==> PushRefused(ls, k, j) || ls[k] == Enqueues(j, FailsBefore)
    ensures PushSent(ls, k + 1, j) <==> PushSent(ls, k, j) || (ls[k].Enqueues? && ls[k].i == j)
    ensures (exists m | 0 <= m < k + 1 :: ls[m] == Stops(j)) <==>
            (exists m | 0 <= m < k :: ls[m] == Stops(j)) || ls[k] == Stops(j)
  {}

  lemma OwnStepKeepsHistory(s: State, ls: seq<Label>, k: nat, j: nat)
    requires KeyInv(s) && QuotaInv(s) && k < |ls| && Enabled(s, ls[k]) && !ls[k].Begins? && ls[k].i == j
    requires HistoryOk(s.calls[j], ls, k, j)
    ensures HistoryOk(Apply(s, ls[k]).calls[j], ls, k + 1, j)
  {
    OneMoreLabel(ls, k, j);
    var c := s.calls[j];
    assert c in s.calls && KeyOk(s.rows, c) && QuotaOk(c);
    match ls[k]
    case Creates(_, _) =>
    case Refuses(_) =>
    case Looks(_) =>
    case Reserves(_) =>
    case Resolves(_, _) =>
    case Enqueues(_, _) =>
    case Releases(_) =>
    case Stops(_) =>
    case LateInsert(_) =>
    case LateEnqueue(_) =>
  }

  lemma OtherStepKeepsHistory(s: State, ls: seq<Label>, k: nat, j: nat)
    requires k < |ls| && Enabled(s, ls[k]) && j < |s.calls| && (ls[k].Begins? || ls[k].i != j)
    requires HistoryOk(s.calls[j], ls, k, j)
    ensures j < |Apply(s, ls[k]).calls| && HistoryOk(Apply(s, ls[k]).calls[j], ls, k + 1, j)
  {
    OneMoreLabel(ls, k, j);
    assert Apply(s, ls[k]).calls[j] == s.calls[j];
  }

  lemma {:induction false} LaterCallsHaveNoLabels(ss: seq<State>, ls: seq<Label>, k: nat, j: nat)
    requires IsTrace(ss, ls) && k < |ss| && j >= |ss[k].calls|
    ensures !InsertErred(ls, k, j) && !PushedWithError(ls, k, j) && !PushRefused(ls, k, j) && !PushSent(ls, k, j)
    ensures forall m | 0 <= m < k :: ls[m] != Stops(j)
  {
    if k > 0 {
      assert |ss[k - 1].calls| <= |ss[k].calls|;
      LaterCallsHaveNoLabels(ss, ls, k - 1, j);
      OneMoreLabel(ls, k - 1, j);
    }
  }

  lemma {:induction false} HistoryHolds(ss: seq<State>, ls: seq<Label>, k: nat, j: nat)
    requires IsTrace(ss, ls) && k < |ss| && j < |ss[k].calls|
    ensures HistoryOk(ss[k].calls[j], ls, k, j)
  {
    if k > 0 {
      var s, l := ss[k - 1], ls[k - 1];
      InvHolds(ss, ls, k - 1);
      if j >= |s.calls| {
        LaterCallsHaveNoLabels(ss, ls, k - 1, j);
        OneMoreLabel(ls, k - 1, j);
      } else {
        HistoryHolds(ss, ls, k - 1, j);
        if !l.Begins? && l.i == j {
          OwnStepKeepsHistory(s, ls, k - 1, j);
        } else {
          OtherStepKeepsHistory(s, ls, k - 1, j);
        }
      }
    }
  }

  // ------------------------------------------------------------------ theorems

  lemma InQueueIs(s: State, j: nat)
    requires KeyInv(s) && j < |s.calls|
    ensures InQueue(s, s.calls[j].id) <==> s.calls[j].push.Landed?
  {
    assert s.calls[j] in s.calls;
    forall c | c in s.calls && c.id == s.calls[j].id ensures c == s.calls[j] {
      var n :| 0 <= n < |s.calls| && s.calls[n] == c;
    }
  }

  /** The call that made the row behind an "already exists" answer. */
  lemma CreatorOf(ss: seq<State>, ls: seq<Label>, k: nat, i: nat) returns (j: nat)
    requires IsTrace(ss, ls) && k < |ss| && i < |ss[k].calls|
    requires ss[k].calls[i].pc.Done? && ss[k].calls[i].pc.result.Reused?
    ensures j < |ss[k].calls| && ss[k].calls[j].id == ss[k].calls[i].pc.result.id
    ensures ss[k].calls[j].row.Landed?
  {
    InvHolds(ss, ls, k);
    var s, c := ss[k], ss[k].calls[i];
    assert c in s.calls && KeyOk(s.rows, c);
    FindMeans(s.rows, c.key);
    var row := Find(s.rows, c.key).value;
    var q :| 0 <= q < |s.rows| && s.rows[q] == row;
    j :| 0 <= j < |s.calls| && s.calls[j].id == row.id;
    assert s.calls[j] in s.calls && KeyOk(s.rows, s.calls[j]);
    assert Inserted(s.rows, s.calls[j].id);
  }

  /** Given the call that made the row of an "already exists" answer: the queue was given the
      email if and only if that call was told "created", or its queue write took effect with an
      error. */
  lemma ReusedIsQueuedIff(ss: seq<State>, ls: seq<Label>, k: nat, i: nat, j: nat)
    requires IsTrace(ss, ls) && k < |ss| && i < |ss[k].calls| && j < |ss[k].calls|
    requires ss[k].calls[i].pc.Done? && ss[k].calls[i].pc.result.Reused?
    requires ss[k].calls[j].id == ss[k].calls[i].pc.result.id
    ensures InQueue(ss[k], ss[k].calls[i].pc.result.id)
            <==> ss[k].calls[j].pc == Done(Created(ss[k].calls[j].id)) || PushedWithError(ls, k, j)
  {
    InvHolds(ss, ls, k);
    HistoryHolds(ss, ls, k, j);
    InQueueIs(ss[k], j);
    assert ss[k].calls[j] in ss[k].calls && QuotaOk(ss[k].calls[j]) && KeyOk(ss[k].rows, ss[k].calls[j]);
  }

  /** The three ways an email with a row is out of reach of the queue for good. */
  ghost predicate OutOfReach(ls: seq<Label>, k: nat, j: nat)
    requires k <= |ls|
  {
    InsertErred(ls, k, j) || PushRefused(ls, k, j) || StoppedBeforePush(ls, k, j)
  }

  lemma {:induction false} CallsStay(ss: seq<State>, ls: seq<Label>, k: nat, m: nat, j: nat)
    requires IsTrace(ss, ls) && k <= m < |ss| && j < |ss[k].calls|
    ensures j < |ss[m].calls| && ss[m].calls[j].id == ss[k].calls[j].id
    ensures ss[k].calls[j].row.Landed? ==> ss[m].calls[j].row == ss[k].calls[j].row
    ensures ss[k].calls[j].pc.Stopped? && ss[k].calls[j].push.Unsent? ==>
              ss[m].calls[j].pc.Stopped? && ss[m].calls[j].push.Unsent?
    decreases m
  {
    if k < m {
      CallsStay(ss, ls, k, m - 1, j);
      InvHolds(ss, ls, m - 1);
      StepKeepsCall(ss[m - 1], ls[m - 1], j);
    }
  }

  lemma StepKeepsCall(s: State, l: Label, j: nat)
    requires KeyInv(s) && Enabled(s, l) && j < |s.calls|
    ensures var s' := Apply(s, l);
            && j < |s'.calls| && s'.calls[j].id == s.calls[j].id
            && (s.calls[j].row.Landed? ==> s'.calls[j].row == s.calls[j].row)
            && (s.calls[j].pc.Stopped? && s.calls[j].push.Unsent? ==>
                  s'.calls[j].pc.Stopped? && s'.calls[j].push.Unsent?)
  {
    assert s.calls[j] in s.calls && KeyOk(s.rows, s.calls[j]);
  }

  /** In each of these cases the email of the row is never queued, however long the run goes on
      and however often the key is used again. */
  lemma NeverQueued(ss: seq<State>, ls: seq<Label>, k: nat, m: nat, j: nat)
    requires IsTrace(ss, ls) && k <= m < |ss| && j < |ss[k].calls| && ss[k].calls[j].row.Landed?
    requires OutOfReach(ls, k, j)
    ensures !InQueue(ss[m], ss[k].calls[j].id)
  {
    HistoryHolds(ss, ls, k, j);
    LaterHistory(ss, ls, k, m, j);
    InvHolds(ss, ls, m);
    InQueueIs(ss[m], j);
    assert ss[m].calls[j] in ss[m].calls && KeyOk(ss[m].rows, ss[m].calls[j]);
  }

  lemma LaterHistory(ss: seq<State>, ls: seq<Label>, k: nat, m: nat, j: nat)
    requires IsTrace(ss, ls) && k <= m < |ss| && j < |ss[k].calls|
    ensures j < |ss[m].calls| && ss[m].calls[j].id == ss[k].calls[j].id && HistoryOk(ss[m].calls[j], ls, m, j)
    ensures ss[k].calls[j].row.Landed? ==> ss[m].calls[j].row == ss[k].calls[j].row
    ensures ss[k].calls[j].pc.Stopped? && ss[k].calls[j].push.Unsent? ==>
              ss[m].calls[j].pc.Stopped? && ss[m].calls[j].push.Unsent?
    ensures PushRefused(ls, k, j) ==> PushRefused(ls, m, j)
  {
    CallsStay(ss, ls, k, m, j);
    HistoryHolds(ss, ls, m, j);
  }

  /** And only then: otherwise the email is in the queue, or one step of its own call puts it
      there. */
  lemma QueuedOrNeverIff(ss: seq<State>, ls: seq<Label>, k: nat, j: nat)
    requires IsTrace(ss, ls) && k < |ss| && j < |ss[k].calls| && ss[k].calls[j].row.Landed?
    ensures !OutOfReach(ls, k, j) <==>
            || InQueue(ss[k], ss[k].calls[j].id)
            || exists l :: Enabled(ss[k], l) && InQueue(Apply(ss[k], l), ss[k].calls[j].id)
  {
    var s, c := ss[k], ss[k].calls[j];
    InvHolds(ss, ls, k);
    HistoryHolds(ss, ls, k, j);
    InQueueIs(s, j);
    assert c in s.calls && KeyOk(s.rows, c) && QuotaOk(c);
    if !OutOfReach(ls, k, j) {
      if c.push.Unsent? {
        Reaches(s, j, Enqueues(j, Ok));
      } else if c.push.Open? {
        Reaches(s, j, LateEnqueue(j));
      }
    } else {
      forall l | Enabled(s, l) ensures !InQueue(Apply(s, l), c.id) {
        StepKeepsKeys(s, l);
        NoStepPushes(s, l, j);
        InQueueIs(Apply(s, l), j);
      }
    }
  }

  lemma Reaches(s: State, j: nat, l: Label)
    requires j < |s.calls| && Enabled(s, l) && (l == Enqueues(j, Ok) || l == LateEnqueue(j))
    ensures InQueue(Apply(s, l), s.calls[j].id)
  {
    assert Apply(s, l).calls[j] in Apply(s, l).calls;
  }

  lemma NoStepPushes(s: State, l: Label, j: nat)
    requires KeyInv(s) && QuotaInv(s) && Enabled(s, l) && j < |s.calls|
    requires s.calls[j].row == Landed(false) || s.calls[j].push.Refused? || (s.calls[j].pc.Stopped?
        && s.calls[j].push.Unsent?)
    ensures j < |Apply(s, l).calls| && Apply(s, l).calls[j].id == s.calls[j].id && !Apply(s, l).calls[j].push.Landed?
  {
    assert s.calls[j] in s.calls && KeyOk(s.rows, s.calls[j]) && QuotaOk(s.calls[j]);
  }

  // ---------------------------------------------------------------------- runs

  lemma Then(ss: seq<State>, ls: seq<Label>, l: Label) returns (ts: seq<State>, ms: seq<Label>)
    requires IsTrace(ss, ls) && Enabled(ss[|ls|], l)
    ensures IsTrace(ts, ms) && ms == ls + [l] && ts == ss + [Apply(ss[|ls|], l)]
  {
    ts, ms := ss + [Apply(ss[|ls|], l)], ls + [l];
  }

  /** A first call up to its insert, with no daily limit. */
  lemma UpToTheInsert(id: nat, key: string, hash: string, units: nat, limit: int, fault: Fault)
    returns (ss: seq<State>, ls: seq<Label>)
    requires (fault == Ok || fault == FailsAfter) && (limit > 0 ==> units <= limit)
    ensures IsTrace(ss, ls)
    ensures ls == [Begins(id, Some(key), hash, units, limit), Looks(0), Reserves(0), Creates(0, fault)]
    ensures var pc := if fault == Ok then Saved else Resolving;
            ss[4] == State([Row(id, Some(key), hash)], if limit > 0 then units else 0,
                           [Call(id, Some(key), hash, units, limit, pc, limit > 0, Landed(fault == Ok), Unsent)])
  {
    ss, ls := [Empty], [];
    ss, ls := Then(ss, ls, Begins(id, Some(key), hash, units, limit));
    ss, ls := Then(ss, ls, Looks(0));
    ss, ls := Then(ss, ls, Reserves(0));
    ss, ls := Then(ss, ls, Creates(0, fault));
  }

  /** Somebody calls again under the key and is told "already exists". */
  lemma Retried(ss: seq<State>, ls: seq<Label>, again: nat, units: nat) returns (ts: seq<State>, ms: seq<Label>)
    requires IsTrace(ss, ls) && |ss[|ls|].calls| == 1 && ss[|ls|].calls[0].key.Some? && ss[|ls|].calls[0].id != again
    requires ss[|ls|].rows == [Own(ss[|ls|].calls[0])]
    ensures IsTrace(ts, ms) && |ts[|ms|].calls| == 2 && ts[|ms|].calls[0] == ss[|ls|].calls[0]
    ensures ts[|ms|].calls[1].id == again && ts[|ms|].calls[1].pc == Done(Reused(ss[|ls|].calls[0].id))
    ensures !ts[|ms|].calls[1].push.Landed? && ts[|ms|].counter == ss[|ls|].counter
    ensures var c := ss[|ls|].calls[0]; ms == ls + [Begins(again, c.key, c.hash, units, 0), Looks(1)]
  {
    var c := ss[|ls|].calls[0];
    ts, ms := Then(ss, ls, Begins(again, c.key, c.hash, units, 0));
    ts, ms := Then(ts, ms, Looks(1));
  }

  /** The insert lands with an error, the call finds its own row, and answers "already exists"
      for an email nobody will ever send. */
  lemma OwnRowAnswered(id: nat, key: string, hash: string, units: nat) returns (ss: seq<State>, ls: seq<Label>)
    ensures IsTrace(ss, ls) && |ss[|ls|].calls| == 1 && ss[|ls|].calls[0].id == id
    ensures ss[|ls|].calls[0].pc == Done(Reused(id)) && !InQueue(ss[|ls|], id)
  {
    ss, ls := UpToTheInsert(id, key, hash, units, 0, FailsAfter);
    ss, ls := Then(ss, ls, Resolves(0, false));
    ss, ls := Then(ss, ls, Releases(0));
  }

  /** The call fails outright, and a retry under the key is told "already exists". */
  lemma LostInsertAnswered(id: nat, again: nat, key: string, hash: string, units: nat)
    returns (ss: seq<State>, ls: seq<Label>)
    requires id != again
    ensures IsTrace(ss, ls) && |ss[|ls|].calls| == 2 && ss[|ls|].calls[0].pc == Done(Error)
    ensures ss[|ls|].calls[1].pc == Done(Reused(id)) && !InQueue(ss[|ls|], id)
  {
    ss, ls := UpToTheInsert(id, key, hash, units, 0, FailsAfter);
    ss, ls := Then(ss, ls, Resolves(0, true));
    ss, ls := Then(ss, ls, Releases(0));
    ss, ls := Retried(ss, ls, again, units);
  }

  /** So is a retry after the queue write failed. */
  lemma FailedEnqueueAnswered(id: nat, again: nat, key: string, hash: string, units: nat)
    returns (ss: seq<State>, ls: seq<Label>)
    requires id != again
    ensures IsTrace(ss, ls) && |ss[|ls|].calls| == 2 && ss[|ls|].calls[0].pc == Done(Error)
    ensures ss[|ls|].calls[1].pc == Done(Reused(id)) && !InQueue(ss[|ls|], id)
  {
    ss, ls := UpToTheInsert(id, key, hash, units, 0, Ok);
    ss, ls := Then(ss, ls, Enqueues(0, FailsBefore));
    ss, ls := Then(ss, ls, Releases(0));
    ss, ls := Retried(ss, ls, again, units);
  }

  /** And a retry after the process stopped between its two writes, without any error at all. */
  lemma StoppedCreatorAnswered(id: nat, again: nat, key: string, hash: string, units: nat)
    returns (ss: seq<State>, ls: seq<Label>)
    requires id != again
    ensures IsTrace(ss, ls) && |ss[|ls|].calls| == 2 && ss[|ls|].calls[0].pc.Stopped?
    ensures ss[|ls|].calls[1].pc == Done(Reused(id)) && !InQueue(ss[|ls|], id)
    ensures forall l | l in ls :: !l.Enqueues? && (l.Creates? ==> l.fault == Ok)
  {
    ss, ls := UpToTheInsert(id, key, hash, units, 0, Ok);
    ss, ls := Then(ss, ls, Stops(0));
    ss, ls := Retried(ss, ls, again, units);
  }

  /** The other way round: the call is told an error, its quota is given back, and the email is
      in the queue. */
  lemma ErrorForAQueuedEmail(id: nat, key: string, hash: string, units: nat, limit: int)
    returns (ss: seq<State>, ls: seq<Label>)
    requires 0 < units <= limit
    ensures IsTrace(ss, ls) && |ss[|ls|].calls| == 1 && ss[|ls|].calls[0].pc == Done(Error)
    ensures InQueue(ss[|ls|], id) && ss[|ls|].counter == 0
  {
    ss, ls := UpToTheInsert(id, key, hash, units, limit, Ok);
    ss, ls := Then(ss, ls, Enqueues(0, FailsAfter));
    ss, ls := Then(ss, ls, Releases(0));
    assert ss[|ls|].calls[0] in ss[|ls|].calls;
  }
}
