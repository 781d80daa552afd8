/** The fenced send-attempt protocol for one email: any number of worker runs, each of
    which may stall, crash, or lose the answer to a statement that takes effect then,
    later, or never; expiry recovery, operators, cancels, replays and provider callbacks
    act in between (internal/service/email_service.go:522-717). */
module SendProtocol {
  import opened EmailDomain
  import opened EmailRows
  import Mailer

  // -------------------------------------------------------------- the machine

  /** Where a run of `processFromQueueDurable` stands. */
  datatype Pc =
    | Minted
    | HasLease
    | Started
    | Refused(retryable: bool)
    | Unknown(tri: nat)
    | Accepting(tri: nat, pid: string)
    | FallingBack
    | Finished

  /** What the provider did with a started attempt, as seen from outside. */
  datatype Outcome = Unsent | Unclear | Taken | Rejected

  datatype EventId =
    | SentEvent(c: Claim) | FailedEvent(c: Claim) | AmbiguousEvent(c: Claim)
    | ReviewEvent(n: nat) | CallbackEvent(n: nat)

  datatype State = State(
    row: Row,
    now: int,
    used: set<nat>,               // every attempt id, fence and replay token drawn so far
    runs: map<Claim, Pc>,
    late: set<Stmt>,              // statements whose answer was lost and that may still land
    claimed: set<Claim>,          // claims whose UPDATE took effect
    started: map<Claim, Outcome>, // attempts past MarkSendStarted
    released: set<Claim>,         // attempts closed by a failed review or a failure callback
    accepted: set<Claim>,         // claims whose acceptance was committed
    replays: set<nat>,            // replay tokens prepared so far
    events: seq<EventId>,         // email_events written with a state change
    outbox: seq<EventId>)         // webhook_outbox

  datatype Reply = Answered | Lost(landed: bool, giveUp: bool)

  datatype Answer = Receipt(pid: string) | NoReceipt | Error(e: Mailer.ProviderError)

  datatype Label =
    | Mint(c: Claim)
    | Issue(c: Claim, q: Stmt, reply: Reply)
    | Lands(q: Stmt)
    | Provider(c: Claim, answer: Answer)
    | Crash(c: Claim)
    | Env(q: Stmt, n: nat)
    | Tick(t: int)

  function Init(team: nat): State {
    State(NewRow(team), 0, {}, map[], {}, {}, map[], {}, {}, {}, [], [])
  }

  predicate MayIssue(c: Claim, pc: Pc, q: Stmt) {
    match pc
    case Minted => q == ClaimAttempt(c)
    case HasLease => q == StartSend(c) || q == MarkRetryable(c) || q == FinalizeFailed(c)
    case Refused(retryable) => q == if retryable then MarkRetryable(c) else FinalizeFailed(c)
    case Unknown(t) => q == FinalizeAmbiguous(c, t)
    case Accepting(t, pid) => q == FinalizeAccepted(c, pid, t)
    case FallingBack => q == FinalizeAmbiguous(c, 0)
    case Started | Finished => false
  }

  /** `hit` is RowsAffected() == 1. */
  function Answering(pc: Pc, q: Stmt, hit: bool): Pc {
    match pc
    case Minted => if hit then HasLease else Finished
    case HasLease => if q.StartSend? && hit then Started else Finished
    case Accepting(_, _) => if hit then Finished else FallingBack
    case _ => Finished
  }

  /** Three local tries for the finalising transactions, one for everything else. */
  function Losing(pc: Pc, giveUp: bool): Pc {
    match pc
    case Unknown(t) => if t >= 2 || giveUp then Finished else Unknown(t + 1)
    case Accepting(t, pid) => if t >= 2 || giveUp then FallingBack else Accepting(t + 1, pid)
    case _ => Finished
  }

  function EventFor(q: Stmt, n: nat): Option<EventId> {
    match q
    case FinalizeAccepted(c, _, _) => Some(SentEvent(c))
    case FinalizeFailed(c) => Some(FailedEvent(c))
    case FinalizeAmbiguous(c, _) => Some(AmbiguousEvent(c))
    case ReconcileAccepted(_) | ReconcileFailed => Some(ReviewEvent(n))
    case ProviderEvent(_, _) => Some(CallbackEvent(n))
    case _ => None
  }

  /** INSERT ... ON CONFLICT DO NOTHING */
  function InsertNew(log: seq<EventId>, e: Option<EventId>): seq<EventId> {
    if e.None? || e.value in log then log else log + [e.value]
  }

  predicate Releases(r: Row, q: Stmt) {
    q.ReconcileFailed? || (q.ProviderEvent? && q.target == Some(Failed)
        && ShouldApplyProviderStatus(r.status, q.target))
  }

  /** One statement taking effect, with the bookkeeping of what it did. */
  function Do(s: State, q: Stmt, n: nat): State {
    if Guard(s.row, q, s.now) then Book(s, q, n, Effect(s.row, q, s.now)) else s
  }

  function Book(s: State, q: Stmt, n: nat, row': Row): State {
    s.(
         row := row',
         claimed := if q.ClaimAttempt? then s.claimed + {q.c} else s.claimed,
         started := if q.StartSend? then s.started[q.c := Unsent] else s.started,
         released := if Releases(s.row, q) then s.started.Keys else s.released,
         accepted := if q.FinalizeAccepted? then s.accepted + {q.c} else s.accepted,
         replays := if q.PrepareReplay? then s.replays + {q.token} else s.replays,
         events := InsertNew(s.events, EventFor(q, n)),
         outbox := InsertNew(s.outbox, EventFor(q, n)))
  }

  function Hearing(s: State, c: Claim, a: Answer): State
    requires c in s.runs
  {
    match a
    case Receipt(pid) =>
      s.(started := s.started[c := Taken],
         runs := s.runs[c := if pid == "" then Unknown(0) else Accepting(0, pid)])
    case NoReceipt => s.(started := s.started[c := Taken], runs := s.runs[c := Unknown(0)])
    case Error(e) =>
      if Mailer.OutcomeUnknown(e) then s.(started := s.started[c := Unclear], runs := s.runs[c := Unknown(0)])
      else s.(started := s.started[c := Rejected], runs := s.runs[c := Refused(Mailer.Retryable(e))])
  }

  predicate Enabled(s: State, l: Label) {
    match l
    case Mint(c) => c.attempt !in s.used && c.fence !in s.used && c.attempt != c.fence
    case Issue(c, q, _) => c in s.runs && MayIssue(c, s.runs[c], q)
    case Lands(q) => q in s.late
    case Provider(c, _) => c in s.runs && s.runs[c] == Started
    case Crash(c) => c in s.runs
    case Env(q, _) => !IsWorkerStmt(q) && IsStmtOk(q) && (q.PrepareReplay? ==> q.token !in s.used)
    case Tick(t) => s.now <= t
  }

  function Apply(s: State, l: Label): State
    requires Enabled(s, l)
  {
    match l
    case Mint(c) => s.(used := s.used + {c.attempt, c.fence}, runs := s.runs[c := Minted])
    case Issue(c, q, reply) => Issuing(s, c, q, reply)
    case Lands(q) => Do(s.(late := s.late - {q}), q, 0)
    case Provider(c, a) => Hearing(s, c, a)
    case Crash(c) => s.(runs := s.runs[c := Finished])
    case Env(q, n) => Do(s.(used := if q.PrepareReplay? then s.used + {q.token} else s.used), q, n)
    case Tick(t) => s.(now := t)
  }

  function Issuing(s: State, c: Claim, q: Stmt, reply: Reply): State
    requires c in s.runs
  {
    match reply
    case Answered => Do(s, q, 0).(runs := s.runs[c := Answering(s.runs[c], q, Guard(s.row, q, s.now))])
    case Lost(landed, giveUp) =>
      var next := if landed then Do(s, q, 0) else s.(late := s.late + {q});
      next.(runs := s.runs[c := Losing(s.runs[c], giveUp)])
  }

  ghost predicate IsTrace(ss: seq<State>, ls: seq<Label>) {
    && |ss| == |ls| + 1
    && (exists team :: ss[0] == Init(team))
    && forall i | 0 <= i < |ls| :: Enabled(ss[i], ls[i]) && ss[i + 1] == Apply(ss[i], ls[i])
  }

  // ------------------------------------------------------------- the invariant

  /** An attempt that may have produced a message nobody has written off. */
  predicate Live(s: State, c: Claim) {
    c in s.started && s.started[c] != Rejected && c !in s.released
  }

  ghost predicate IdsInv(s: State) {
    && (forall c | c in s.runs :: c.attempt in s.used && c.fence in s.used)
    && (forall c, d | c in s.runs && d in s.runs && c.attempt == d.attempt :: c == d)
    && s.started.Keys <= s.claimed <= s.runs.Keys
    && s.released <= s.started.Keys
    && s.accepted <= s.runs.Keys
    && s.replays <= s.used
    && (s.row.fence.Some? ==> s.row.fence.value in s.used)
    && (forall c | c in s.runs && Owns(s.row, c) :: c in s.claimed)
    && (s.row.status == Queued ==> s.row.state == NoAttempt)
  }

  /** What a statement still in flight says about its run. */
  ghost predicate LateOk(s: State, q: Stmt) {
    && IsWorkerStmt(q) && q.c in s.runs
    && (q.ClaimAttempt? ==> q.c !in s.claimed && s.runs[q.c] != Minted)
    && (q.StartSend? ==> q.c !in s.started && s.runs[q.c] == Finished
                         && MarkRetryable(q.c) !in s.late && FinalizeFailed(q.c) !in s.late)
    && (q.MarkRetryable? || q.FinalizeFailed? ==>
          s.runs[q.c] == Finished && (q.c in s.started ==> s.started[q.c] == Rejected))
  }

  ghost predicate PcOk(s: State, c: Claim)
    requires c in s.runs
  {
    match s.runs[c]
    case Minted => c !in s.claimed
    case HasLease => c in s.claimed && c !in s.started
    case Started => c in s.started && s.started[c] == Unsent
    case Refused(_) => c in s.started && s.started[c] == Rejected
    case _ => true
  }

  ghost predicate RunsInv(s: State) {
    && (forall q | q in s.late :: LateOk(s, q))
    && (forall c | c in s.runs :: PcOk(s, c))
  }

  /** The attempt state of the row bounds the live attempts. */
  ghost predicate LiveInv(s: State) {
    && (s.row.state in {NoAttempt, Leased, FailedTerminal} ==> forall c :: !Live(s, c))
    && (s.row.state == SendStarted ==> forall c | Live(s, c) :: Owns(s.row, c))
    && (forall c, d | Live(s, c) && Live(s, d) :: c == d)
  }

  /** Accepted, with nothing left for a repeated acceptance to change. */
  predicate Settled(r: Row) {
    && r.state == Accepted && r.status != Sending && r.lease.None? && r.sendingAt.None? && !r.recovery
    && r.providerId.Some?
  }

  ghost predicate AcceptInv(s: State) {
    && (forall c | c in s.accepted :: c in s.claimed && (Owns(s.row, c) ==> Settled(s.row)))
    && (forall c :: c in s.accepted <==> SentEvent(c) in s.events)
  }

  ghost predicate LogInv(s: State) {
    && s.outbox == s.events
    && forall i, j | 0 <= i < j < |s.events| :: s.events[i] != s.events[j]
  }

  ghost predicate Inv(s: State) {
    IdsInv(s) && RunsInv(s) && LiveInv(s) && AcceptInv(s) && LogInv(s)
  }

  /** The run behind a worker statement is in a position that makes it harmless. */
  ghost predicate Safe(s: State, q: Stmt) {
    && IsStmtOk(q)
    && (IsWorkerStmt(q) ==>
          && q.c in s.runs
          && (q.ClaimAttempt? ==> q.c !in s.claimed)
          && (q.StartSend? ==> q.c !in s.started)
          && (q.MarkRetryable? || q.FinalizeFailed? ==> q.c in s.started ==> s.started[q.c] == Rejected))
  }

  /** The attempts live afterwards were live before, except one that starts now. */
  lemma LiveAfterDo(s: State, q: Stmt, n: nat, c: Claim)
    requires IdsInv(s) && Live(Do(s, q, n), c)
    ensures Live(s, c) || (q == StartSend(c) && Guard(s.row, q, s.now))
    ensures !(Guard(s.row, q, s.now) && Releases(s.row, q))
  {}

  lemma CallbackKeepsLive(s: State, q: Stmt, n: nat)
    requires IdsInv(s) && LiveInv(s) && Safe(s, q) && q.ProviderEvent?
    ensures LiveInv(Do(s, q, n))
  {
    forall c | Live(Do(s, q, n), c) ensures Live(s, c) {
      LiveAfterDo(s, q, n, c);
    }
  }

  /** A run gives its row back or closes it: nothing is live by then. */
  lemma ClosingKeepsLive(s: State, q: Stmt, n: nat)
    requires IdsInv(s) && LiveInv(s) && Safe(s, q) && (q.MarkRetryable? || q.FinalizeFailed?)
    ensures LiveInv(Do(s, q, n))
  {
    if Guard(s.row, q, s.now) {
      NoLiveOnceRefused(s, q.c);
      forall c ensures !Live(Do(s, q, n), c) {
        assert !Live(s, c);
      }
    }
  }

  lemma StartingKeepsLive(s: State, q: Stmt, n: nat)
    requires IdsInv(s) && LiveInv(s) && Safe(s, q) && q.StartSend?
    ensures LiveInv(Do(s, q, n))
  {
    if Guard(s.row, q, s.now) {
      forall c | Live(Do(s, q, n), c) ensures c == q.c {
        LiveAfterDo(s, q, n, c);
      }
    }
  }

  lemma OtherwiseKeepsLive(s: State, q: Stmt, n: nat)
    requires IdsInv(s) && LiveInv(s) && Safe(s, q)
    requires !q.ProviderEvent? && !q.MarkRetryable? && !q.FinalizeFailed? && !q.StartSend?
    ensures LiveInv(Do(s, q, n))
  {
    forall c | Live(Do(s, q, n), c) ensures Live(s, c) && !(Guard(s.row, q, s.now) && Releases(s.row, q)) {
      LiveAfterDo(s, q, n, c);
    }
  }

  lemma DoKeepsLive(s: State, q: Stmt, n: nat)
    requires IdsInv(s) && LiveInv(s) && Safe(s, q)
    ensures LiveInv(Do(s, q, n))
  {
    if q.ProviderEvent? {
      CallbackKeepsLive(s, q, n);
    } else if q.MarkRetryable? || q.FinalizeFailed? {
      ClosingKeepsLive(s, q, n);
    } else if q.StartSend? {
      StartingKeepsLive(s, q, n);
    } else {
      OtherwiseKeepsLive(s, q, n);
    }
  }

  lemma NoLiveOnceRefused(s: State, c: Claim)
    requires IdsInv(s) && LiveInv(s) && c in s.runs
    requires Owns(s.row, c) && s.row.state in {Leased, SendStarted}
    requires c in s.started ==> s.started[c] == Rejected
    ensures forall d :: !Live(s, d)
  {
    assert forall d | d in s.runs && Owns(s.row, d) :: d == c;
  }

  /** What a matching statement can do to the identity of the row. */
  lemma EffectOnIds(r: Row, q: Stmt, now: int)
    requires Guard(r, q, now) && IsStmtOk(q) && (r.status == Queued ==> r.state == NoAttempt)
    ensures var r' := Effect(r, q, now);
            && (r'.fence.Some? ==> r'.fence == r.fence || (q.ClaimAttempt? && r'.fence == Some(q.c.fence)))
            && (forall c :: Owns(r', c) ==> Owns(r, c) || (q.ClaimAttempt? && q.c.attempt == c.attempt))
            && (r'.status == Queued ==> r'.state == NoAttempt)
  {
    match q
    case ProviderEvent(_, _) =>
    case _ =>
  }

  lemma BookKeepsIds(s: State, q: Stmt, n: nat, r': Row)
    requires IdsInv(s) && Safe(s, q)
    requires q.PrepareReplay? ==> q.token in s.used
    requires q.StartSend? ==> Owns(s.row, q.c)
    requires r'.fence.Some? ==> r'.fence == s.row.fence || (q.ClaimAttempt? && r'.fence == Some(q.c.fence))
    requires forall c :: Owns(r', c) ==> Owns(s.row, c) || (q.ClaimAttempt? && q.c.attempt == c.attempt)
    requires r'.status == Queued ==> r'.state == NoAttempt
    ensures IdsInv(Book(s, q, n, r'))
  {}

  lemma DoKeepsIds(s: State, q: Stmt, n: nat)
    requires IdsInv(s) && Safe(s, q)
    requires q.PrepareReplay? ==> q.token in s.used
    ensures IdsInv(Do(s, q, n))
  {
    if Guard(s.row, q, s.now) {
      EffectOnIds(s.row, q, s.now);
      BookKeepsIds(s, q, n, Effect(s.row, q, s.now));
    }
  }

  /** A pair that has held the row and lost it never holds it again. */
  lemma DoNeverRegains(s: State, q: Stmt, n: nat, c: Claim)
    requires IdsInv(s) && Safe(s, q) && c in s.claimed && !Owns(s.row, c)
    ensures !Owns(Do(s, q, n).row, c)
  {
    if Guard(s.row, q, s.now) {
      EffectOnIds(s.row, q, s.now);
    }
  }

  lemma DoKeepsAccept(s: State, q: Stmt, n: nat)
    requires IdsInv(s) && AcceptInv(s) && Safe(s, q)
    ensures AcceptInv(Do(s, q, n))
  {
    var s' := Do(s, q, n);
    if Guard(s.row, q, s.now) {
      forall c | c in s'.accepted && Owns(s'.row, c) ensures Settled(s'.row) {
        if c in s.accepted && !Owns(s.row, c) { DoNeverRegains(s, q, n, c); }
      }
      assert forall c :: EventFor(q, n) == Some(SentEvent(c)) <==> q.FinalizeAccepted? && q.c == c;
    }
  }

  lemma DoKeepsLog(s: State, q: Stmt, n: nat)
    requires LogInv(s)
    ensures LogInv(Do(s, q, n))
  {}

  lemma DoKeepsRuns(s: State, q: Stmt, n: nat)
    requires IdsInv(s) && RunsInv(s) && Safe(s, q)
    requires q.ClaimAttempt? ==> q !in s.late && s.runs[q.c] != Minted
    requires q.StartSend? ==>
               q !in s.late && MarkRetryable(q.c) !in s.late && FinalizeFailed(q.c) !in s.late
               && s.runs[q.c] in {Started, Finished}
    ensures RunsInv(Do(s, q, n))
  {
    var s' := Do(s, q, n);
    forall p | p in s'.late ensures LateOk(s', p) {
      assert LateOk(s, p);
    }
    forall c | c in s'.runs ensures PcOk(s', c) {
      assert PcOk(s, c);
    }
  }

  lemma DoKeepsInv(s: State, q: Stmt, n: nat)
    requires Inv(s) && Safe(s, q)
    requires q.PrepareReplay? ==> q.token in s.used
    requires q.ClaimAttempt? ==> q !in s.late && s.runs[q.c] != Minted
    requires q.StartSend? ==>
               q !in s.late && MarkRetryable(q.c) !in s.late && FinalizeFailed(q.c) !in s.late
               && s.runs[q.c] in {Started, Finished}
    ensures Inv(Do(s, q, n))
  {
    DoKeepsIds(s, q, n);
    DoKeepsRuns(s, q, n);
    DoKeepsLive(s, q, n);
    DoKeepsAccept(s, q, n);
    DoKeepsLog(s, q, n);
  }

  /** A run that is not finished has none of its decisive statements in flight. */
  lemma NothingDecisiveInFlight(s: State, c: Claim)
    requires RunsInv(s) && c in s.runs && s.runs[c] != Finished
    ensures StartSend(c) !in s.late && MarkRetryable(c) !in s.late && FinalizeFailed(c) !in s.late
    ensures s.runs[c] == Minted ==> ClaimAttempt(c) !in s.late
  {}

  lemma MovingKeepsInv(s: State, c: Claim, pc: Pc)
    requires Inv(s) && c in s.runs && pc != Minted && PcOk(s.(runs := s.runs[c := pc]), c)
    requires pc != Finished ==>
               StartSend(c) !in s.late && MarkRetryable(c) !in s.late && FinalizeFailed(c) !in s.late
    ensures Inv(s.(runs := s.runs[c := pc]))
  {
    var s' := s.(runs := s.runs[c := pc]);
    forall q | q in s'.late ensures LateOk(s', q) {
      assert LateOk(s, q);
    }
    forall d | d in s'.runs ensures PcOk(s', d) {
      assert d != c ==> PcOk(s, d);
    }
    assert forall d :: Live(s', d) <==> Live(s, d);
  }

  /** Only positions and in-flight statements changed. */
  lemma Reframe(s: State, s': State)
    requires Inv(s) && s' == s.(runs := s'.runs, late := s'.late)
    requires s'.runs.Keys == s.runs.Keys && RunsInv(s')
    ensures Inv(s')
  {
    assert forall d :: Live(s', d) <==> Live(s, d);
  }

  lemma InFlightOk(s: State, c: Claim, q: Stmt, giveUp: bool)
    requires RunsInv(s) && c in s.runs && MayIssue(c, s.runs[c], q)
    ensures LateOk(s.(late := s.late + {q}, runs := s.runs[c := Losing(s.runs[c], giveUp)]), q)
  {
    NothingDecisiveInFlight(s, c);
    assert PcOk(s, c);
  }

  lemma LosingKeepsRuns(s: State, c: Claim, q: Stmt, giveUp: bool)
    requires RunsInv(s) && c in s.runs && MayIssue(c, s.runs[c], q)
    ensures RunsInv(s.(late := s.late + {q}, runs := s.runs[c := Losing(s.runs[c], giveUp)]))
  {
    NothingDecisiveInFlight(s, c);
    InFlightOk(s, c, q, giveUp);
    var s' := s.(late := s.late + {q}, runs := s.runs[c := Losing(s.runs[c], giveUp)]);
    forall p | p in s'.late ensures LateOk(s', p) {
      if p != q {
        assert LateOk(s, p);
        assert p.StartSend? ==> p.c != c;
      }
    }
    forall d | d in s'.runs ensures PcOk(s', d) {
      assert PcOk(s, d);
    }
  }

  /** The answer is lost and the statement has not landed: it stays in flight. */
  lemma LosingKeepsInv(s: State, c: Claim, q: Stmt, giveUp: bool)
    requires Inv(s) && c in s.runs && MayIssue(c, s.runs[c], q)
    ensures Inv(s.(late := s.late + {q}, runs := s.runs[c := Losing(s.runs[c], giveUp)]))
  {
    LosingKeepsRuns(s, c, q, giveUp);
    Reframe(s, s.(late := s.late + {q}, runs := s.runs[c := Losing(s.runs[c], giveUp)]));
  }

  lemma ParkedDo(s: State, c: Claim, q: Stmt)
    requires Inv(s) && c in s.runs && MayIssue(c, s.runs[c], q)
    ensures Inv(Do(s, q, 0).(runs := s.runs[c := Finished]))
    ensures var done := Do(s, q, 0);
            StartSend(c) !in done.late && MarkRetryable(c) !in done.late && FinalizeFailed(c) !in done.late
  {
    NothingDecisiveInFlight(s, c);
    assert PcOk(s, c);
    MovingKeepsInv(s, c, Finished);
    var parked := s.(runs := s.runs[c := Finished]);
    DoKeepsInv(parked, q, 0);
    DoIgnoresRuns(s, q, parked.runs);
  }

  lemma DoIgnoresRuns(s: State, q: Stmt, runs: map<Claim, Pc>)
    ensures Do(s.(runs := runs), q, 0) == Do(s, q, 0).(runs := runs)
    ensures Do(s, q, 0).late == s.late
  {}

  /** The statement lands before the run moves to any admissible next position. */
  lemma LandedKeepsInv(s: State, c: Claim, q: Stmt, pc: Pc)
    requires Inv(s) && c in s.runs && MayIssue(c, s.runs[c], q) && !pc.Minted?
    requires PcOk(Do(s, q, 0).(runs := s.runs[c := pc]), c)
    ensures Inv(Do(s, q, 0).(runs := s.runs[c := pc]))
  {
    ParkedDo(s, c, q);
    var done := Do(s, q, 0).(runs := s.runs[c := Finished]);
    assert done.runs[c := pc] == s.runs[c := pc];
    MovingKeepsInv(done, c, pc);
  }

  lemma IssueKeepsInv(s: State, c: Claim, q: Stmt, reply: Reply)
    requires Inv(s) && c in s.runs && MayIssue(c, s.runs[c], q)
    ensures Inv(Issuing(s, c, q, reply))
  {
    assert PcOk(s, c);
    match reply
    case Answered =>
      LandedKeepsInv(s, c, q, Answering(s.runs[c], q, Guard(s.row, q, s.now)));
    case Lost(landed, giveUp) =>
      if landed {
        LandedKeepsInv(s, c, q, Losing(s.runs[c], giveUp));
      } else {
        LosingKeepsInv(s, c, q, giveUp);
      }
  }

  lemma LandingKeepsInv(s: State, q: Stmt)
    requires Inv(s) && q in s.late
    ensures Inv(Do(s.(late := s.late - {q}), q, 0))
  {
    assert LateOk(s, q);
    var s' := s.(late := s.late - {q});
    forall p | p in s'.late ensures LateOk(s', p) {
      assert LateOk(s, p);
    }
    forall c | c in s'.runs ensures PcOk(s', c) {
      assert PcOk(s, c);
    }
    assert forall d :: Live(s', d) <==> Live(s, d);
    DoKeepsInv(s', q, 0);
  }

  lemma HearingKeepsRuns(s: State, c: Claim, o: Outcome, pc: Pc)
    requires RunsInv(s) && c in s.runs && s.runs[c] == Started
    requires pc.Unknown? || pc.Accepting? || (pc.Refused? && o == Rejected)
    ensures RunsInv(s.(started := s.started[c := o], runs := s.runs[c := pc]))
  {
    NothingDecisiveInFlight(s, c);
    assert PcOk(s, c);
    var s' := s.(started := s.started[c := o], runs := s.runs[c := pc]);
    forall q | q in s'.late ensures LateOk(s', q) {
      assert LateOk(s, q);
    }
    forall d | d in s'.runs ensures PcOk(s', d) {
      assert PcOk(s, d);
    }
  }

  lemma FewerLive(s: State, s': State)
    requires LiveInv(s) && s'.row == s.row && forall d :: Live(s', d) ==> Live(s, d)
    ensures LiveInv(s')
  {}

  lemma HearingKeepsInv(s: State, c: Claim, o: Outcome, pc: Pc)
    requires Inv(s) && c in s.runs && s.runs[c] == Started
    requires pc.Unknown? || pc.Accepting? || (pc.Refused? && o == Rejected)
    ensures Inv(s.(started := s.started[c := o], runs := s.runs[c := pc]))
  {
    HearingKeepsRuns(s, c, o, pc);
    assert PcOk(s, c);
    var s' := s.(started := s.started[c := o], runs := s.runs[c := pc]);
    assert s'.started.Keys == s.started.Keys && s'.runs.Keys == s.runs.Keys;
    FewerLive(s, s');
  }

  lemma MintKeepsInv(s: State, c: Claim)
    requires Inv(s) && Enabled(s, Mint(c))
    ensures Inv(Apply(s, Mint(c)))
  {
    var s' := Apply(s, Mint(c));
    assert c !in s.runs;
    forall q | q in s'.late ensures LateOk(s', q) {
      assert LateOk(s, q);
    }
    forall d | d in s'.runs ensures PcOk(s', d) {
      assert d != c ==> PcOk(s, d);
    }
    assert forall d :: Live(s', d) <==> Live(s, d);
  }

  lemma EnvKeepsInv(s: State, q: Stmt, n: nat)
    requires Inv(s) && Enabled(s, Env(q, n))
    ensures Inv(Apply(s, Env(q, n)))
  {
    var s' := s.(used := if q.PrepareReplay? then s.used + {q.token} else s.used);
    SameView(s, s');
    DoKeepsInv(s', q, n);
  }

  lemma SameView(s: State, s': State)
    requires Inv(s) && s.used <= s'.used && s' == s.(used := s'.used, now := s'.now)
    ensures Inv(s')
  {
    forall q | q in s'.late ensures LateOk(s', q) {
      assert LateOk(s, q);
    }
    forall d | d in s'.runs ensures PcOk(s', d) {
      assert PcOk(s, d);
    }
    assert forall d :: Live(s', d) <==> Live(s, d);
  }

  lemma ProviderKeepsInv(s: State, c: Claim, a: Answer)
    requires Inv(s) && c in s.runs && s.runs[c] == Started
    ensures Inv(Hearing(s, c, a))
  {
    var s' := Hearing(s, c, a);
    HearingKeepsInv(s, c, s'.started[c], s'.runs[c]);
  }

  lemma StepKeepsInv(s: State, l: Label)
    requires Inv(s) && Enabled(s, l)
    ensures Inv(Apply(s, l))
  {
    match l
    case Mint(c) => MintKeepsInv(s, c);
    case Issue(c, q, reply) => IssueKeepsInv(s, c, q, reply);
    case Lands(q) => LandingKeepsInv(s, q);
    case Provider(c, a) => ProviderKeepsInv(s, c, a);
    case Crash(c) => MovingKeepsInv(s, c, Finished);
    case Env(q, n) => EnvKeepsInv(s, q, n);
    case Tick(t) => SameView(s, s.(now := t));
  }

  lemma {:induction false} InvHolds(ss: seq<State>, ls: seq<Label>, k: nat)
    requires IsTrace(ss, ls) && k < |ss|
    ensures Inv(ss[k])
  {
    if k > 0 {
      InvHolds(ss, ls, k - 1);
      StepKeepsInv(ss[k - 1], ls[k - 1]);
    }
  }

  // ---------------------------------------------------------------- theorems

  /** At most one attempt of the email may have produced a message: any two attempts past
      `MarkSendStarted` that were not definitely rejected, and not written off by a failed
      review or a failure callback, are the same attempt. */
  lemma AtMostOneSubmission(ss: seq<State>, ls: seq<Label>, k: nat, c: Claim, d: Claim)
    requires IsTrace(ss, ls) && k < |ss|
    requires Live(ss[k], c) && Live(ss[k], d)
    ensures c == d
  {
    InvHolds(ss, ls, k);
  }

  /** While such an attempt exists nothing can hand the email to a new one. */
  lemma LiveAttemptBlocksResend(ss: seq<State>, ls: seq<Label>, k: nat, c: Claim, d: Claim, token: nat)
    requires IsTrace(ss, ls) && k < |ss| && Live(ss[k], c)
    ensures !Guard(ss[k].row, ClaimAttempt(d), ss[k].now)
    ensures !Guard(ss[k].row, PrepareReplay(token), ss[k].now)
    ensures d != c ==> !Guard(ss[k].row, StartSend(d), ss[k].now)
  {
    InvHolds(ss, ls, k);
  }

  lemma StepNeverRegains(s: State, l: Label, c: Claim)
    requires Inv(s) && Enabled(s, l) && c in s.claimed && !Owns(s.row, c)
    ensures c in Apply(s, l).claimed && !Owns(Apply(s, l).row, c)
  {
    match l
    case Issue(d, q, reply) =>
      assert PcOk(s, d);
      if reply.Answered? || reply.landed { DoNeverRegains(s, q, 0, c); }
    case Lands(q) =>
      assert LateOk(s, q);
      DoNeverRegains(s.(late := s.late - {q}), q, 0, c);
    case Env(q, n) =>
      var s' := s.(used := if q.PrepareReplay? then s.used + {q.token} else s.used);
      DoNeverRegains(s', q, n, c);
    case _ =>
  }

  /** Each (attempt, fence) pair holds the row for one unbroken period. */
  lemma {:induction false} OwnershipIsOnePeriod(ss: seq<State>, ls: seq<Label>, i: nat, j: nat, k: nat, c: Claim)
    requires IsTrace(ss, ls) && i <= j <= k < |ss|
    requires c in ss[i].runs && Owns(ss[i].row, c) && !Owns(ss[j].row, c)
    ensures c in ss[k].claimed && !Owns(ss[k].row, c)
    decreases k
  {
    InvHolds(ss, ls, i);
    if j < k {
      OwnershipIsOnePeriod(ss, ls, i, j, k - 1, c);
      InvHolds(ss, ls, k - 1);
      StepNeverRegains(ss[k - 1], ls[k - 1], c);
    } else {
      ClaimedForever(ss, ls, i, j, c);
    }
  }

  /** A worker that lost its row can do nothing to it ever again: all its statements are no-ops
      for the rest of the run. */
  lemma StaleWorkerIsHarmless(ss: seq<State>, ls: seq<Label>, i: nat, j: nat, k: nat, c: Claim, q: Stmt)
    requires IsTrace(ss, ls) && i <= j <= k < |ss|
    requires c in ss[i].runs && Owns(ss[i].row, c) && !Owns(ss[j].row, c)
    requires IsWorkerStmt(q) && q.c == c && !q.ClaimAttempt?
    ensures Exec(ss[k].row, q, ss[k].now) == ss[k].row
    ensures ClaimAttempt(c) !in ss[k].late && c in ss[k].runs && ss[k].runs[c] != Minted
  {
    OwnershipIsOnePeriod(ss, ls, i, j, k, c);
    InvHolds(ss, ls, k);
    StalePairChangesNothing(ss[k].row, q, ss[k].now);
    assert PcOk(ss[k], c);
    assert forall p | p in ss[k].late :: LateOk(ss[k], p);
  }

  lemma {:induction false} ClaimedForever(ss: seq<State>, ls: seq<Label>, i: nat, j: nat, c: Claim)
    requires IsTrace(ss, ls) && i <= j < |ss| && c in ss[i].claimed
    ensures c in ss[j].claimed
    decreases j
  {
    if i < j {
      ClaimedForever(ss, ls, i, j - 1, c);
    }
  }

  // -- dead-letter replay

  predicate HoldsReplay(r: Row, token: nat) {
    r.status == Queued && r.state == NoAttempt && r.attemptId == Some(token)
  }

  /** The ways a prepared replay ends: it is claimed, rolled back, cancelled, failed by the API,
      or resolved by a callback. */
  predicate EndsReplay(r: Row, q: Stmt, token: nat) {
    || q.ClaimAttempt? || q == CancelReplay(token) || q.CancelQueued? || q.EnqueueFailed?
    || (q.ProviderEvent? && ShouldApplyProviderStatus(r.status, q.target))
  }

  lemma ReplayEndsOnlySo(r: Row, q: Stmt, now: int, token: nat)
    requires HoldsReplay(r, token) && r.fence.None? && IsStmtOk(q) && !EndsReplay(r, q, token)
    ensures HoldsReplay(Exec(r, q, now), token) && Exec(r, q, now).fence.None?
  {
    match q
    case ProviderEvent(_, _) =>
    case _ =>
  }

  /** The statement that the step makes take effect, if it does. */
  function Landing(l: Label): Option<Stmt> {
    match l
    case Issue(_, q, reply) => if reply.Answered? || reply.landed then Some(q) else None
    case Lands(q) => Some(q)
    case Env(q, _) => Some(q)
    case _ => None
  }

  ghost predicate ReplayPending(r: Row, token: nat) {
    HoldsReplay(r, token) && r.fence.None?
  }

  lemma StepKeepsReplay(s: State, l: Label, token: nat)
    requires Inv(s) && Enabled(s, l) && ReplayPending(s.row, token)
    requires Landing(l).Some? ==> !EndsReplay(s.row, Landing(l).value, token)
    ensures ReplayPending(Apply(s, l).row, token)
    ensures Landing(l) == Some(DeadLetterFailed) ==> Apply(s, l).row == s.row
  {
    match l
    case Issue(_, q, reply) => if Landing(l).Some? { ReplayEndsOnlySo(s.row, q, s.now, token); }
    case Lands(q) =>
      assert LateOk(s, q);
      ReplayEndsOnlySo(s.row, q, s.now, token);
    case Env(q, _) => ReplayEndsOnlySo(s.row, q, s.now, token);
    case _ =>
  }

  /** No step between the preparation and state `k` ends the replay. */
  ghost predicate ReplayUndisturbed(ss: seq<State>, ls: seq<Label>, i: nat, k: nat, token: nat, n: nat)
    requires IsTrace(ss, ls) && i < k <= |ls|
  {
    && ls[i] == Env(PrepareReplay(token), n) && ss[i + 1].row != ss[i].row
    && forall j | i < j < k && Landing(ls[j]).Some? :: !EndsReplay(ss[j].row, Landing(ls[j]).value, token)
  }

  lemma {:induction false} ReplayStaysPending(ss: seq<State>, ls: seq<Label>, i: nat, k: nat, token: nat, n: nat)
    requires IsTrace(ss, ls) && i < k <= |ls| && ReplayUndisturbed(ss, ls, i, k, token, n)
    ensures ReplayPending(ss[k].row, token)
    decreases k
  {
    if k > i + 1 {
      ReplayStaysPending(ss, ls, i, k - 1, token, n);
      InvHolds(ss, ls, k - 1);
      StepKeepsReplay(ss[k - 1], ls[k - 1], token);
    }
  }

  /** From its preparation until it is claimed, cancelled or resolved, a replay stays as it was
      prepared: whatever late dead-letter writes arrive in between leave the row alone. */
  lemma DeadLettersCannotCloseReplay(ss: seq<State>, ls: seq<Label>, i: nat, k: nat, token: nat, n: nat)
    requires IsTrace(ss, ls) && i < k <= |ls| && ReplayUndisturbed(ss, ls, i, k, token, n)
    ensures ReplayPending(ss[k].row, token)
    ensures forall j | i < j < k && Landing(ls[j]) == Some(DeadLetterFailed) :: ss[j + 1].row == ss[j].row
  {
    ReplayStaysPending(ss, ls, i, k, token, n);
    forall j | i < j < k && Landing(ls[j]) == Some(DeadLetterFailed) ensures ss[j + 1].row == ss[j].row {
      ReplayStaysPending(ss, ls, i, j, token, n);
      InvHolds(ss, ls, j);
      StepKeepsReplay(ss[j], ls[j], token);
    }
  }

  lemma OnlyItsPreparationGrantsReplay(r: Row, q: Stmt, now: int, token: nat)
    requires IsStmtOk(q) && q != PrepareReplay(token) && !HoldsReplay(r, token)
    ensures !HoldsReplay(Exec(r, q, now), token)
  {
    match q
    case ProviderEvent(_, _) =>
    case _ =>
  }

  lemma StepNeverRegainsReplay(s: State, l: Label, token: nat)
    requires Inv(s) && Enabled(s, l) && token in s.replays && !HoldsReplay(s.row, token)
    ensures token in Apply(s, l).replays && !HoldsReplay(Apply(s, l).row, token)
  {
    match l
    case Issue(_, q, _) => OnlyItsPreparationGrantsReplay(s.row, q, s.now, token);
    case Lands(q) =>
      assert LateOk(s, q);
      OnlyItsPreparationGrantsReplay(s.row, q, s.now, token);
    case Env(q, _) => OnlyItsPreparationGrantsReplay(s.row, q, s.now, token);
    case _ =>
  }

  lemma {:induction false} ReplayLostForever(ss: seq<State>, ls: seq<Label>, j: nat, k: nat, token: nat)
    requires IsTrace(ss, ls) && j <= k < |ss|
    requires token in ss[j].replays && !HoldsReplay(ss[j].row, token)
    ensures token in ss[k].replays && !HoldsReplay(ss[k].row, token)
    decreases k
  {
    if j < k {
      ReplayLostForever(ss, ls, j, k - 1, token);
      InvHolds(ss, ls, k - 1);
      StepNeverRegainsReplay(ss[k - 1], ls[k - 1], token);
    }
  }

  lemma {:induction false} PreparedForever(ss: seq<State>, ls: seq<Label>, i: nat, k: nat, token: nat)
    requires IsTrace(ss, ls) && i <= k < |ss| && token in ss[i].replays
    ensures token in ss[k].replays
    decreases k
  {
    if i < k {
      PreparedForever(ss, ls, i, k - 1, token);
    }
  }

  /** A rollback that takes effect finds the row exactly as its own preparation left it:
      from the preparation up to the rollback the replay was never claimed, cancelled,
      dead-lettered or prepared again. */
  lemma RollbackUndoesOnlyItsOwnReplay(ss: seq<State>, ls: seq<Label>, i: nat, j: nat, k: nat, token: nat, n: nat)
    requires IsTrace(ss, ls) && i < k <= j < |ls|
    requires ls[i] == Env(PrepareReplay(token), n) && ss[i + 1].row != ss[i].row
    requires ls[j].Env? && ls[j].q == CancelReplay(token) && ss[j + 1].row != ss[j].row
    ensures HoldsReplay(ss[k].row, token)
  {
    assert token in ss[i + 1].replays;
    PreparedForever(ss, ls, i + 1, k, token);
    if !HoldsReplay(ss[k].row, token) {
      ReplayLostForever(ss, ls, k, j, token);
      assert false;
    }
  }

  // -- review of ambiguous outcomes

  /** If an email under review is later not under review, some step in between was an
      operator's decision or an applied callback (or the API's failed-enqueue write). */
  lemma ReviewClosesOnlyByDecision(ss: seq<State>, ls: seq<Label>, i: nat, j: nat) returns (k: nat)
    requires IsTrace(ss, ls) && i < j < |ss|
    requires ss[i].row.status == Ambiguous && ss[j].row.status != Ambiguous
    ensures i <= k < j && ss[k].row.status == Ambiguous && ss[k + 1].row.status != Ambiguous
    ensures ls[k].Env? && ResolvesReview(ss[k].row, ls[k].q)
  {
    k := LastReviewStep(ss, i, j);
    InvHolds(ss, ls, k);
    if ls[k].Lands? { assert LateOk(ss[k], ls[k].q); }
    StepClosesReview(ss[k], ls[k]);
  }

  lemma {:induction false} LastReviewStep(ss: seq<State>, i: nat, j: nat) returns (k: nat)
    requires i < j < |ss| && ss[i].row.status == Ambiguous && ss[j].row.status != Ambiguous
    ensures i <= k < j && ss[k].row.status == Ambiguous && ss[k + 1].row.status != Ambiguous
    decreases j
  {
    if ss[j - 1].row.status == Ambiguous {
      k := j - 1;
    } else {
      k := LastReviewStep(ss, i, j - 1);
    }
  }

  lemma StepClosesReview(s: State, l: Label)
    requires Enabled(s, l) && s.row.status == Ambiguous && Apply(s, l).row.status != Ambiguous
    requires l.Lands? ==> IsWorkerStmt(l.q)
    ensures l.Env? && ResolvesReview(s.row, l.q)
  {
    match l
    case Issue(_, q, _) => QuarantineIsClosed(s.row, q, s.now);
    case Lands(q) => QuarantineIsClosed(s.row, q, s.now);
    case Env(q, _) => QuarantineIsClosed(s.row, q, s.now);
    case _ =>
  }

  // -- persisting an acceptance

  /** Once any of the local acceptance transactions has committed, no statement of the same
      run, however late it lands, changes the row: the fallback to review is a no-op, and so is
      another try of the acceptance. */
  lemma AcceptanceIsNeverDowngraded(ss: seq<State>, ls: seq<Label>, i: nat, j: nat, c: Claim, q: Stmt)
    requires IsTrace(ss, ls) && i <= j < |ss| && c in ss[i].accepted
    requires IsWorkerStmt(q) && q.c == c && !q.ClaimAttempt?
    ensures Exec(ss[j].row, q, ss[j].now) == ss[j].row
    ensures ClaimAttempt(c) !in ss[j].late && c in ss[j].runs && ss[j].runs[c] != Minted
  {
    AcceptedForever(ss, ls, i, j, c);
    InvHolds(ss, ls, j);
    assert PcOk(ss[j], c);
    assert forall p | p in ss[j].late :: LateOk(ss[j], p);
  }

  lemma {:induction false} AcceptedForever(ss: seq<State>, ls: seq<Label>, i: nat, j: nat, c: Claim)
    requires IsTrace(ss, ls) && i <= j < |ss| && c in ss[i].accepted
    ensures c in ss[j].accepted
    decreases j
  {
    if i < j {
      AcceptedForever(ss, ls, i, j - 1, c);
    }
  }

  /** However often the transactions are retried, the event log and the outbox hold the same
      entries, each once, and the "sent" entry of a run exists exactly if its acceptance was
      committed. */
  lemma EventsAreRecordedOnce(ss: seq<State>, ls: seq<Label>, k: nat, c: Claim)
    requires IsTrace(ss, ls) && k < |ss|
    ensures ss[k].outbox == ss[k].events
    ensures forall i, j | 0 <= i < j < |ss[k].events| :: ss[k].events[i] != ss[k].events[j]
    ensures SentEvent(c) in ss[k].outbox <==> c in ss[k].accepted
  {
    InvHolds(ss, ls, k);
  }

  // -- row consistency

  predicate HarmlessFailure(s: State, l: Label) {
    l.Env? && l.q.EnqueueFailed? ==> s.row.state in {NoAttempt, FailedTerminal} && !s.row.recovery
  }

  lemma StepKeepsRowConsistent(s: State, l: Label)
    requires Inv(s) && Enabled(s, l) && Consistent(s.row) && HarmlessFailure(s, l)
    ensures Consistent(Apply(s, l).row)
  {
    match l
    case Issue(c, q, _) => ConsistencyIsInductive(s.row, q, s.now);
    case Lands(q) =>
      assert LateOk(s, q);
      ConsistencyIsInductive(s.row, q, s.now);
    case Env(q, _) =>
      if q.EnqueueFailed? {
        EnqueueFailedKeepsConsistencyIff(s.row, s.now);
      } else {
        ConsistencyIsInductive(s.row, q, s.now);
      }
    case _ =>
  }

  /** The row is consistent in every reachable state of a run, if each unfenced write of the API
      finds no attempt under way, accepted or in review, and no recovery pending. */
  lemma {:induction false} RowsStayConsistent(ss: seq<State>, ls: seq<Label>, k: nat)
    requires IsTrace(ss, ls) && k < |ss|
    requires forall i | 0 <= i < |ls| :: HarmlessFailure(ss[i], ls[i])
    ensures Consistent(ss[k].row)
  {
    if k > 0 {
      RowsStayConsistent(ss, ls, k - 1);
      InvHolds(ss, ls, k - 1);
      StepKeepsRowConsistent(ss[k - 1], ls[k - 1]);
    }
  }
}
