/** The `emails` row and the guarded UPDATE statements of the durable send path
    (internal/repository/email_repo.go, internal/repository/delivery_pipeline_repo.go). */
module EmailRows {
  import opened EmailDomain
  import opened ProviderStatus

  /** One worker run's identity. The two lease values are the `LeaseUntil` it sends with
      the claim and with the start; they are arbitrary. */
  datatype Claim = Claim(attempt: nat, fence: nat, claimLease: int, startLease: int)

  datatype Row = Row(
    team: nat,
    status: Status,
    state: AttemptState,
    attemptId: Option<nat>,
    fence: Option<nat>,
    lease: Option<int>,
    sendingAt: Option<int>,
    recovery: bool,
    providerId: Option<string>)

  function NewRow(team: nat): (r: Row)
    ensures Consistent(r)
  {
    Row(team, Queued, NoAttempt, None, None, None, None, false, None)
  }

  const AcceptedStatuses := {Sent, Delivered, Opened, Clicked, Bounced, Complained}

  /** How status and attempt state fit together in every durable row. */
  predicate Consistent(r: Row) {
    && (r.status == Sending <==> r.state in {Leased, SendStarted})
    && (r.status == Sending ==> r.attemptId.Some? && r.fence.Some? && r.lease.Some?)
    && (r.status == Ambiguous <==> r.state == Unresolved)
    && (r.status in AcceptedStatuses <==> r.state == Accepted)
    && (r.status in {Queued, Cancelled} ==> r.state == NoAttempt)
    && (r.status == Failed ==> r.state in {NoAttempt, FailedTerminal})
    && (r.recovery ==> r.status == Queued)
  }

  predicate Owns(r: Row, c: Claim) {
    r.attemptId == Some(c.attempt) && r.fence == Some(c.fence)
  }

  /** Each statement is one atomic UPDATE, or one transaction, on one row. `tri` numbers
      the local retries of a finalising transaction. */
  datatype Stmt =
    // issued by a worker run, fenced by its claim
    | ClaimAttempt(c: Claim)
    | StartSend(c: Claim)
    | MarkRetryable(c: Claim)
    | MarkAmbiguous(c: Claim)
    | FinalizeAccepted(c: Claim, pid: string, tri: nat)
    | FinalizeFailed(c: Claim)
    | FinalizeAmbiguous(c: Claim, tri: nat)
    // issued by recovery, operators, the API and provider callbacks
    | RecoverExpired
    | RecoveryEnqueued
    | DeadLetterFailed
    | PrepareReplay(token: nat)
    | CancelReplay(token: nat)
    | CancelQueued
    | ReconcileAccepted(pid: string)
    | ReconcileFailed
    | ProviderEvent(pid: string, target: Target)
    | EnqueueFailed

  predicate IsWorkerStmt(s: Stmt) {
    s.ClaimAttempt? || s.StartSend? || s.MarkRetryable? || s.MarkAmbiguous?
    || s.FinalizeAccepted? || s.FinalizeFailed? || s.FinalizeAmbiguous?
  }

  predicate ExpiredBeforeSend(r: Row, now: int) {
    r.status == Sending && r.state == Leased && Before(r.lease, now)
  }

  /** Ten minutes is the grace for rows that carry no lease. */
  predicate ExpiredAfterSend(r: Row, now: int) {
    && r.status == Sending
    && (r.state == SendStarted || (r.state == NoAttempt && r.providerId.None?))
    && (Before(r.lease, now) || (r.lease.None? && Before(r.sendingAt, now - 600)))
  }

  /** The WHERE clause. */
  predicate Guard(r: Row, s: Stmt, now: int) {
    match s
    case ClaimAttempt(_) => r.status == Queued && r.state in {NoAttempt, FailedTerminal}
    case StartSend(c) => Owns(r, c) && r.status == Sending && r.state == Leased
    case MarkRetryable(c) => Owns(r, c) && r.status == Sending && r.state in {Leased, SendStarted}
    case MarkAmbiguous(c) => Owns(r, c) && r.status == Sending && r.state == SendStarted
    case FinalizeAccepted(c, pid, _) =>
      Owns(r, c) && ((r.status == Sending && r.state == SendStarted && r.lease.Some? && r.lease.value >= now)
                     || (r.state == Accepted && r.providerId == Some(pid)))
    case FinalizeFailed(c) => Owns(r, c) && r.status == Sending && r.state in {Leased, SendStarted}
    case FinalizeAmbiguous(c, _) => Owns(r, c) && r.status == Sending && r.state == SendStarted
    case RecoverExpired => ExpiredBeforeSend(r, now) || ExpiredAfterSend(r, now)
    case RecoveryEnqueued => r.recovery
    case DeadLetterFailed =>
      || (r.status == Queued && r.state == NoAttempt && r.attemptId.None? && r.fence.None? && !r.recovery)
      || (r.status == Failed && r.state == FailedTerminal && r.attemptId.None? && r.fence.None?)
    case PrepareReplay(_) => r.status == Failed && r.state in {NoAttempt, FailedTerminal}
    case CancelReplay(token) => r.status == Queued && r.state == NoAttempt && r.attemptId == Some(token)
    case CancelQueued => r.status == Queued
    case ReconcileAccepted(_) | ReconcileFailed => r.status == Ambiguous && r.state == Unresolved
    case ProviderEvent(pid, _) => r.providerId.None? || r.providerId == Some(pid)
    case EnqueueFailed => true
  }

  function Requeued(r: Row, recovery: bool): Row {
    r.(status := Queued, state := NoAttempt, attemptId := None, fence := None, lease := None,
       sendingAt := None, recovery := recovery)
  }

  function Released(r: Row, status: Status, state: AttemptState): Row {
    r.(status := status, state := state, fence := None, lease := None, sendingAt := None, recovery := false)
  }

  function AfterProviderEvent(r: Row, pid: string, target: Target): Row {
    var known := if r.providerId.None? then r.(providerId := Some(pid)) else r;
    if !ShouldApplyProviderStatus(r.status, target) then known
    else Released(known, target.value, if target.value == Failed then FailedTerminal else Accepted)
  }

  /** The SET clause, for a row that matched. */
  function Effect(r: Row, s: Stmt, now: int): Row {
    match s
    case ClaimAttempt(c) =>
      r.(status := Sending, state := Leased, attemptId := Some(c.attempt), fence := Some(c.fence),
         lease := Some(c.claimLease), sendingAt := Some(now), recovery := false)
    case StartSend(c) => r.(state := SendStarted, lease := Some(c.startLease))
    case MarkRetryable(_) => Requeued(r, false)
    case MarkAmbiguous(_) | FinalizeAmbiguous(_, _) => Released(r, Ambiguous, Unresolved)
    case FinalizeAccepted(_, pid, _) =>
      r.(status := if r.status == Sending then Sent else r.status, state := Accepted, lease := None,
         sendingAt := None, recovery := false, providerId := Some(pid))
    case FinalizeFailed(_) | ReconcileFailed => Released(r, Failed, FailedTerminal)
    case RecoverExpired =>
      if ExpiredBeforeSend(r, now) then Requeued(r, true) else Released(r, Ambiguous, Unresolved)
    case RecoveryEnqueued => r.(recovery := false)
    case DeadLetterFailed | CancelReplay(_) => Released(r, Failed, FailedTerminal).(attemptId := None)
    case PrepareReplay(token) => Requeued(r, false).(attemptId := Some(token))
    case CancelQueued => r.(status := Cancelled, recovery := false)
    case ReconcileAccepted(pid) => Released(r, Sent, Accepted).(providerId := Some(pid))
    case ProviderEvent(pid, target) => AfterProviderEvent(r, pid, target)
    case EnqueueFailed => r.(status := Failed, sendingAt := None)
  }

  function Exec(r: Row, s: Stmt, now: int): Row {
    if Guard(r, s, now) then Effect(r, s, now) else r
  }

  function Recovered(r: Row, now: int): (r': Row)
    ensures r' == Exec(r, RecoverExpired, now)
  {
    if ExpiredBeforeSend(r, now) then Requeued(r, true)
    else if ExpiredAfterSend(r, now) then Released(r, Ambiguous, Unresolved)
    else r
  }

  predicate IsStmtOk(s: Stmt) {
    s.ProviderEvent? ==> IsCallback(s.target)
  }

  // ------------------------------------------------------- row consistency

  /** Every statement but the unfenced `UpdateStatus` keeps the row consistent. */
  lemma ConsistencyIsInductive(r: Row, s: Stmt, now: int)
    requires Consistent(r) && IsStmtOk(s) && !s.EnqueueFailed?
    ensures Consistent(Exec(r, s, now))
  {
    if Guard(r, s, now) {
      match s
      case ProviderEvent(pid, target) => ProviderEventKeepsConsistency(r, pid, target);
      case _ =>
    }
  }

  lemma ProviderEventKeepsConsistency(r: Row, pid: string, target: Target)
    requires Consistent(r) && IsCallback(target)
    ensures Consistent(AfterProviderEvent(r, pid, target))
  {
    if ShouldApplyProviderStatus(r.status, target) {
      assert target.value in {Sent, Delivered, Opened, Clicked, Bounced, Complained, Failed};
    }
  }

  /** `send` marks the email failed when the queue write reported an error. The write may have
      reached the queue all the same, so a worker can be on the row already: the statement is
      safe exactly if it finds no attempt under way, accepted or in review, and no recovery
      pending. */
  lemma EnqueueFailedKeepsConsistencyIff(r: Row, now: int)
    requires Consistent(r)
    ensures Consistent(Exec(r, EnqueueFailed, now)) <==> r.state in {NoAttempt, FailedTerminal} && !r.recovery
  {
    assert Exec(r, EnqueueFailed, now) == r.(status := Failed, sendingAt := None);
  }

  lemma EnqueueFailedCanBreakARow(c: Claim, now: int)
    ensures var claimed := Exec(NewRow(0), ClaimAttempt(c), now);
            Consistent(claimed) && !Consistent(Exec(claimed, EnqueueFailed, now))
  {
    var claimed := Exec(NewRow(0), ClaimAttempt(c), now);
    EnqueueFailedKeepsConsistencyIff(claimed, now);
  }

  // ------------------------------------------------------ single statements

  /** A worker statement whose pair no longer owns the row is a no-op. */
  lemma StalePairChangesNothing(r: Row, s: Stmt, now: int)
    requires IsWorkerStmt(s) && !s.ClaimAttempt? && !Owns(r, s.c)
    ensures Exec(r, s, now) == r
  {
    match s
    case FinalizeAccepted(c, pid, t) =>
    case _ =>
  }

  /** The ways out of review: an operator, an applied callback, or the API's own unfenced
      write after a failed enqueue. */
  predicate ResolvesReview(r: Row, s: Stmt) {
    || s.ReconcileAccepted? || s.ReconcileFailed?
    || (s.ProviderEvent? && ShouldApplyProviderStatus(r.status, s.target))
    || s.EnqueueFailed?
  }

  lemma QuarantineIsClosed(r: Row, s: Stmt, now: int)
    requires r.status == Ambiguous && IsStmtOk(s)
    ensures Exec(r, s, now).status != Ambiguous ==> ResolvesReview(r, s)
  {
    match s
    case ProviderEvent(_, _) =>
    case _ =>
  }
}

/** The `emails` table as the repositories update it in place. */
module EmailTable {
  import opened EmailDomain
  import opened ProviderStatus
  import opened EmailRows

  /** What one keyed UPDATE promises: the addressed row takes the statement's effect,
      every other row is untouched, and the flag is RowsAffected() == 1. */
  ghost predicate Updated(before: map<string, Row>, id: string, s: Stmt, now: int,
                          after: map<string, Row>, affected: bool) {
    && affected == (id in before && Guard(before[id], s, now))
    && after == if id in before then before[id := Exec(before[id], s, now)] else before
  }

  function AllRecovered(rows: map<string, Row>, now: int): (r: map<string, Row>) {
    map id | id in rows :: Recovered(rows[id], now)
  }

  lemma AllRecoveredIsConsistent(rows: map<string, Row>, now: int)
    requires forall id | id in rows :: Consistent(rows[id])
    ensures forall id | id in rows :: Consistent(AllRecovered(rows, now)[id])
  {
    forall id | id in rows ensures Consistent(AllRecovered(rows, now)[id]) {
      ConsistencyIsInductive(rows[id], RecoverExpired, now);
    }
  }

  /** An attempt under way whose lease is over. Every durable row under way carries a lease. */
  predicate Overdue(r: Row, now: int) {
    r.status == Sending && r.lease.Some? && r.lease.value < now
  }

  /** An overdue attempt is requeued for recovery if the send has not started, and goes to review
      if it has; every other row stays as it is. */
  predicate RecoveredIs(was: Row, now: int, r: Row) {
    r == if !Overdue(was, now) then was
         else if was.state == Leased
         then was.(status := Queued, state := NoAttempt, attemptId := None, fence := None, lease := None,
                   sendingAt := None, recovery := true)
         else was.(status := Ambiguous, state := Unresolved, fence := None, lease := None, sendingAt := None,
                   recovery := false)
  }

  lemma RecoveredMeans(r: Row, now: int)
    requires Consistent(r)
    ensures RecoveredIs(r, now, Recovered(r, now))
    ensures ExpiredBeforeSend(r, now) <==> Overdue(r, now) && r.state == Leased
  {}

  class EmailStore {
    var rows: map<string, Row>

    ghost predicate Valid() reads this {
      forall id | id in rows :: Consistent(rows[id])
    }

    constructor ()
      ensures Valid() && rows == map[]
    {
      rows := map[];
    }

    method ClaimSendAttempt(id: string, c: Claim, now: int) returns (ok: bool)
      requires Valid()
      modifies this
      ensures Valid() && Updated(old(rows), id, ClaimAttempt(c), now, rows, ok)
      ensures ok <==> id in old(rows) && old(rows)[id].status == Queued
                      && old(rows)[id].state in {NoAttempt, FailedTerminal}
      ensures rows == if !ok then old(rows) else old(rows)[id := old(rows)[id].(
                status := Sending, state := Leased, attemptId := Some(c.attempt), fence := Some(c.fence),
                lease := Some(c.claimLease), sendingAt := Some(now), recovery := false)]
    {
      ok := id in rows && rows[id].status == Queued && rows[id].state in {NoAttempt, FailedTerminal};
      if ok {
        var r := rows[id];
        rows := rows[id := r.(status := Sending, sendingAt := Some(now), attemptId := Some(c.attempt),
                              fence := Some(c.fence), state := Leased, lease := Some(c.claimLease),
                              recovery := false)];
      }
    }

    method MarkSendStarted(id: string, c: Claim, now: int) returns (ok: bool)
      requires Valid()
      modifies this
      ensures Valid() && Updated(old(rows), id, StartSend(c), now, rows, ok)
      ensures ok <==> id in old(rows) && Owns(old(rows)[id], c) && old(rows)[id].status == Sending
                      && old(rows)[id].state == Leased
      ensures rows == if !ok then old(rows) else old(rows)[id := old(rows)[id].(
                state := SendStarted, lease := Some(c.startLease))]
    {
      ok := id in rows && Owns(rows[id], c) && rows[id].status == Sending && rows[id].state == Leased;
      if ok {
        rows := rows[id := rows[id].(state := SendStarted, lease := Some(c.startLease))];
      }
    }

    method MarkSendRetryable(id: string, c: Claim, now: int) returns (ok: bool)
      requires Valid()
      modifies this
      ensures Valid() && Updated(old(rows), id, MarkRetryable(c), now, rows, ok)
      ensures ok <==> id in old(rows) && Owns(old(rows)[id], c) && old(rows)[id].status == Sending
                      && old(rows)[id].state in {Leased, SendStarted}
      ensures rows == if !ok then old(rows) else old(rows)[id := old(rows)[id].(
                status := Queued, state := NoAttempt, attemptId := None, fence := None, lease := None,
                sendingAt := None, recovery := false)]
    {
      ok := id in rows && Owns(rows[id], c) && rows[id].status == Sending
            && rows[id].state in {Leased, SendStarted};
      if ok {
        rows := rows[id := Requeued(rows[id], false)];
      }
    }

    // The row half of the finalising transactions; the log half is in `Acceptance`.

    method FinalizeAccepted(id: string, c: Claim, pid: string, now: int) returns (ok: bool)
      requires Valid()
      modifies this
      ensures Valid() && Updated(old(rows), id, EmailRows.FinalizeAccepted(c, pid, 0), now, rows, ok)
      ensures ok <==> id in old(rows) && Owns(old(rows)[id], c)
                      && ((old(rows)[id].status == Sending && old(rows)[id].state == SendStarted
                           && old(rows)[id].lease.Some? && now <= old(rows)[id].lease.value)
                          || (old(rows)[id].state == Accepted && old(rows)[id].providerId == Some(pid)))
      ensures rows == if !ok then old(rows) else old(rows)[id := old(rows)[id].(
                status := if old(rows)[id].status == Sending then Sent else old(rows)[id].status, state := Accepted,
                lease := None, sendingAt := None, recovery := false, providerId := Some(pid))]
    {
      ok := false;
      if id in rows && Owns(rows[id], c) {
        var r := rows[id];
        ok := (r.status == Sending && r.state == SendStarted && r.lease.Some? && r.lease.value >= now)
              || (r.state == Accepted && r.providerId == Some(pid));
        if ok {
          var status := r.status;
          if status == Sending { status := Sent; }
          rows := rows[id := r.(status := status, state := Accepted, lease := None, sendingAt := None,
                                recovery := false, providerId := Some(pid))];
        }
      }
    }

    method FinalizeFailed(id: string, c: Claim, now: int) returns (ok: bool)
      requires Valid()
      modifies this
      ensures Valid() && Updated(old(rows), id, EmailRows.FinalizeFailed(c), now, rows, ok)
      ensures ok <==> id in old(rows) && Owns(old(rows)[id], c) && old(rows)[id].status == Sending
                      && old(rows)[id].state in {Leased, SendStarted}
      ensures rows == if !ok then old(rows) else old(rows)[id := old(rows)[id].(
                status := Failed, state := FailedTerminal, fence := None, lease := None, sendingAt := None,
                recovery := false)]
    {
      ok := id in rows && Owns(rows[id], c) && rows[id].status == Sending
            && rows[id].state in {Leased, SendStarted};
      if ok {
        rows := rows[id := rows[id].(status := Failed, state := FailedTerminal, fence := None, lease := None,
                                     sendingAt := None, recovery := false)];
      }
    }

    method FinalizeAmbiguous(id: string, c: Claim, now: int) returns (ok: bool)
      requires Valid()
      modifies this
      ensures Valid() && Updated(old(rows), id, EmailRows.FinalizeAmbiguous(c, 0), now, rows, ok)
      ensures ok <==> id in old(rows) && Owns(old(rows)[id], c) && old(rows)[id].status == Sending
                      && old(rows)[id].state == SendStarted
      ensures rows == if !ok then old(rows) else old(rows)[id := old(rows)[id].(
                status := Ambiguous, state := Unresolved, fence := None, lease := None, sendingAt := None,
                recovery := false)]
    {
      ok := id in rows && Owns(rows[id], c) && rows[id].status == Sending && rows[id].state == SendStarted;
      if ok {
        rows := rows[id := rows[id].(status := Ambiguous, state := Unresolved, fence := None, lease := None,
                                     sendingAt := None, recovery := false)];
      }
    }

    /** `ok` is false for a missing row and for a row that carries another receipt. */
    method ApplyProviderEvent(id: string, pid: string, target: Target, now: int) returns (ok: bool)
      requires Valid() && IsCallback(target)
      modifies this
      ensures Valid() && Updated(old(rows), id, ProviderEvent(pid, target), now, rows, ok)
      ensures ok <==> id in old(rows) && old(rows)[id].providerId in {None, Some(pid)}
      ensures if !ok then rows == old(rows) else
                var applies := ShouldApplyProviderStatus(old(rows)[id].status, target);
                && rows == old(rows)[id := rows[id]] && rows[id].providerId == Some(pid)
                && (!applies ==> rows[id] == old(rows)[id].(providerId := Some(pid)))
                && (applies ==> rows[id] == old(rows)[id].(
                                  providerId := Some(pid), status := target.value, fence := None, lease := None,
                                  sendingAt := None, recovery := false,
                                  state := if target.value == Failed then FailedTerminal else Accepted))
    {
      ok := id in rows && (rows[id].providerId.None? || rows[id].providerId.value == pid);
      if ok {
        var r := rows[id];
        ProviderEventKeepsConsistency(r, pid, target);
        var applies := ShouldApplyProviderStatus(r.status, target);
        if r.providerId.None? { r := r.(providerId := Some(pid)); }
        if applies {
          r := r.(status := target.value, state := Accepted, fence := None, lease := None,
                  recovery := false, sendingAt := None);
          if target == Some(Failed) { r := r.(state := FailedTerminal); }
        }
        rows := rows[id := r];
      }
    }

    /** Both UPDATEs of the transaction, row by row, with the requeued ids collected. */
    method RecoverExpiredSendAttempts(now: int) returns (recovered: seq<string>)
      requires Valid()
      modifies this
      ensures Valid() && rows == AllRecovered(old(rows), now)
      ensures forall id :: id in recovered <==> id in old(rows) && ExpiredBeforeSend(old(rows)[id], now)
      ensures forall i, j | 0 <= i < j < |recovered| :: recovered[i] != recovered[j]
      ensures rows.Keys == old(rows).Keys
      ensures forall id :: id in recovered <==> id in old(rows) && Overdue(old(rows)[id], now)
                                                && old(rows)[id].state == Leased
      ensures forall id | id in rows :: RecoveredIs(old(rows)[id], now, rows[id])
    {
      recovered := [];
      var before, table, todo := rows, rows, rows.Keys;
      while todo != {}
        invariant todo <= table.Keys == before.Keys
        invariant forall id | id in before ::
                    table[id] == if id in todo then before[id] else Recovered(before[id], now)
        invariant forall id :: id in recovered <==>
                               id in before && id !in todo && ExpiredBeforeSend(before[id], now)
        invariant forall i, j | 0 <= i < j < |recovered| :: recovered[i] != recovered[j]
        decreases |todo|
      {
        var id :| id in todo;
        todo := todo - {id};
        if ExpiredBeforeSend(table[id], now) {
          recovered := recovered + [id];
        }
        table := table[id := Recovered(table[id], now)];
      }
      rows := table;
      AllRecoveredIsConsistent(before, now);
      forall id | id in before ensures RecoveredIs(before[id], now, rows[id]) {
        RecoveredMeans(before[id], now);
      }
    }

    method MarkQueueRecoveryEnqueued(id: string, now: int)
      requires Valid()
      modifies this
      ensures Valid() && exists ok :: Updated(old(rows), id, RecoveryEnqueued, now, rows, ok)
      ensures rows == if id in old(rows) && old(rows)[id].recovery
                      then old(rows)[id := old(rows)[id].(recovery := false)] else old(rows)
    {
      if id in rows && rows[id].recovery {
        rows := rows[id := rows[id].(recovery := false)];
        assert Updated(old(rows), id, RecoveryEnqueued, now, rows, true);
      } else {
        assert Updated(old(rows), id, RecoveryEnqueued, now, rows, false);
      }
    }

    method MarkDeadLetterFailed(id: string, now: int) returns (ok: bool)
      requires Valid()
      modifies this
      ensures Valid() && Updated(old(rows), id, DeadLetterFailed, now, rows, ok)
      ensures ok <==> id in old(rows) && old(rows)[id].attemptId == None == old(rows)[id].fence
                      && ((old(rows)[id].status == Queued && old(rows)[id].state == NoAttempt
                           && !old(rows)[id].recovery)
                          || (old(rows)[id].status == Failed && old(rows)[id].state == FailedTerminal))
      ensures rows == if !ok then old(rows) else old(rows)[id := old(rows)[id].(
                status := Failed, state := FailedTerminal, attemptId := None, fence := None, lease := None,
                sendingAt := None, recovery := false)]
    {
      ok := false;
      if id in rows {
        var r := rows[id];
        ok := r.attemptId.None? && r.fence.None?
              && ((r.status == Queued && r.state == NoAttempt && !r.recovery)
                  || (r.status == Failed && r.state == FailedTerminal));
        if ok {
          rows := rows[id := r.(status := Failed, sendingAt := None, state := FailedTerminal,
                                attemptId := None, fence := None, lease := None, recovery := false)];
        }
      }
    }

    method PrepareDeadLetterReplay(team: nat, id: string, token: nat, now: int) returns (ok: bool)
      requires Valid()
      modifies this
      ensures Valid()
      ensures if id in old(rows) && old(rows)[id].team == team
              then Updated(old(rows), id, PrepareReplay(token), now, rows, ok)
              else rows == old(rows) && !ok
      ensures ok <==> id in old(rows) && old(rows)[id].team == team && old(rows)[id].status == Failed
                      && old(rows)[id].state in {NoAttempt, FailedTerminal}
      ensures rows == if !ok then old(rows) else old(rows)[id := old(rows)[id].(
                status := Queued, state := NoAttempt, attemptId := Some(token), fence := None, lease := None,
                sendingAt := None, recovery := false)]
    {
      ok := id in rows && rows[id].team == team && rows[id].status == Failed
            && rows[id].state in {NoAttempt, FailedTerminal};
      if ok {
        rows := rows[id := rows[id].(status := Queued, sendingAt := None, state := NoAttempt,
                                     attemptId := Some(token), fence := None, lease := None,
                                     recovery := false)];
      }
    }

    method CancelDeadLetterReplay(id: string, token: nat, now: int) returns (ok: bool)
      requires Valid()
      modifies this
      ensures Valid() && Updated(old(rows), id, CancelReplay(token), now, rows, ok)
      ensures ok <==> id in old(rows) && old(rows)[id].status == Queued && old(rows)[id].state == NoAttempt
                      && old(rows)[id].attemptId == Some(token)
      ensures rows == if !ok then old(rows) else old(rows)[id := old(rows)[id].(
                status := Failed, state := FailedTerminal, attemptId := None, fence := None, lease := None,
                sendingAt := None, recovery := false)]
    {
      ok := id in rows && rows[id].status == Queued && rows[id].state == NoAttempt
            && rows[id].attemptId == Some(token);
      if ok {
        rows := rows[id := rows[id].(status := Failed, sendingAt := None, state := FailedTerminal,
                                     attemptId := None, fence := None, lease := None, recovery := false)];
      }
    }

    method CancelQueuedEmail(team: nat, id: string, now: int) returns (ok: bool)
      requires Valid()
      modifies this
      ensures Valid()
      ensures if id in old(rows) && old(rows)[id].team == team
              then Updated(old(rows), id, CancelQueued, now, rows, ok)
              else rows == old(rows) && !ok
      ensures ok <==> id in old(rows) && old(rows)[id].team == team && old(rows)[id].status == Queued
      ensures rows == if !ok then old(rows) else old(rows)[id := old(rows)[id].(
                status := Cancelled, recovery := false)]
    {
      ok := id in rows && rows[id].team == team && rows[id].status == Queued;
      if ok {
        rows := rows[id := rows[id].(status := Cancelled, recovery := false)];
      }
    }
  }
}
