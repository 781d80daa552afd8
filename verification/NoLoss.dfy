/** Two stores, one promise: a published email that is still queued is never forgotten.
    Any number of worker loops (internal/worker/email_worker.go) drive the rows and the queue
    and may crash between any two steps; a call that reports an error may have taken effect, may
    take effect at any later time, or never; the API creates, publishes, cancels, reviews and
    replays in between. */
module NoLoss {
  import opened EmailDomain
  import opened EmailRows
  import opened Receipts
  import opened Queue
  import QR = QueueRuns

  datatype Phase =
    | Fresh                      // receipt in hand
    | Claiming                   // the row was queued and due
    | HasLease(c: Claim)
    | Started(c: Claim)
    | ToAck
    | ToRequeue(count: bool)
    | ToReschedule(at: int)
    | ToDeadLetter

  datatype Pc =
    | Idle
    | Holding(token: string, id: string, phase: Phase)
    | Reenqueuing(ids: seq<string>)
    | Marking(id: string, rest: seq<string>)

  /** A statement or a queue call whose answer was lost and that may still take effect. */
  datatype Call =
    | RowWrite(id: string, w: Stmt)
    | AckCall(token: string, id: string)
    | RequeueCall(token: string, id: string, count: bool)
    | RescheduleCall(token: string, id: string, at: int)
    | EnqueueCall(id: string)

  datatype State = State(
    rows: map<string, Row>,
    q: Q,
    published: set<string>,
    used: set<string>,           // receipt tokens drawn so far
    loops: map<nat, Pc>,
    late: set<Call>,
    now: int)

  datatype Reading = ReadError | NotDue(at: int) | Ready

  datatype Reply = Answered | Lost(landed: bool)

  datatype Label =
    // loop `k`
    | Takes(k: nat, token: string, lease: int, heard: bool)
    | Loads(k: nat, reading: Reading)
    | Writes(k: nat, w: Stmt, reply: Reply, more: bool)
    | Settles(k: nat, landed: bool, heard: bool)
    | RecoversRows(k: nat)
    | Lists(k: nat, ids: seq<string>)
    | Reenqueues(k: nat, landed: bool, heard: bool)
    | RecoversQueue(k: nat)
    | PromotesDue(k: nat, ids: seq<string>)
    | Crashes(k: nat)
    // everyone else
    | Lands(op: Call)
    | Creates(id: string, team: nat)
    | Publishes(id: string, at: Option<int>)
    | Edits(id: string, w: Stmt)
    | Replays(id: string, replayToken: nat)    // a replay that nothing interrupts
    | Prepares(id: string, replayToken: nat)   // its row write alone,
    | Moves(id: string)                        // its queue write alone,
    | Cancels(id: string, replayToken: nat)    // and the rollback of the first
    | Ticks(t: int)

  // ------------------------------------------------------------------ the loop

  function At(s: State, k: nat): Pc {
    if k in s.loops then s.loops[k] else Idle
  }

  function Go(s: State, k: nat, pc: Pc): State {
    s.(loops := s.loops[k := pc])
  }

  function Write(rows: map<string, Row>, id: string, w: Stmt, now: int): map<string, Row> {
    if id in rows then rows[id := Exec(rows[id], w, now)] else rows
  }

  predicate Hits(s: State, id: string, w: Stmt) {
    id in s.rows && Guard(s.rows[id], w, s.now)
  }

  predicate MayWrite(phase: Phase, w: Stmt) {
    match phase
    case Claiming => w.ClaimAttempt?
    case HasLease(c) => w == StartSend(c) || w == MarkRetryable(c) || w == FinalizeFailed(c)
    case Started(c) =>
      w == MarkRetryable(c) || w == FinalizeFailed(c)
      || (w.FinalizeAmbiguous? && w.c == c) || (w.FinalizeAccepted? && w.c == c)
    case ToDeadLetter => w == DeadLetterFailed
    case _ => false
  }

  /** `processNext`: which queue operation each outcome of `ProcessFromQueue` leads to.
      `more` leaves room for another local try of a finalising transaction. */
  function AfterWrite(phase: Phase, w: Stmt, hit: bool, reply: Reply, more: bool): Phase {
    match w
    case ClaimAttempt(c) => if reply.Lost? then ToRequeue(true) else if hit then HasLease(c) else ToAck
    case StartSend(c) => if reply.Lost? then ToRequeue(true) else if hit then Started(c) else ToAck
    case MarkRetryable(_) => if reply.Lost? || hit then ToRequeue(true) else ToAck
    case FinalizeFailed(_) => if reply.Lost? then ToRequeue(true) else ToAck
    case _ => if more then phase else ToAck
  }

  function Landed(reply: Reply): bool {
    reply.Answered? || reply.landed
  }

  /** What one more dead letter pushes off the dead list. */
  function PushedOff(q: Q): set<string> {
    if |q.dead| >= DeadCap then Members(q.dead[DeadCap - 1..]) else {}
  }

  function RunCall(q: Q, op: Call, now: int): Q {
    match op
    case RowWrite(_, _) => q
    case AckCall(token, id) => Ack(q, token, id)
    case RequeueCall(token, id, count) => Requeue(q, token, id, now, count)
    case RescheduleCall(token, id, at) => RescheduleReceipt(q, token, id, at)
    case EnqueueCall(id) => Enqueue(q, id)
  }

  /** The retry ends in the dead list. */
  predicate Dies(q: Q, op: Call) {
    op.RequeueCall? && Encode(op.token, op.id) in q.processing && DeadLetters(q, op.id, op.count)
  }

  predicate MaySettle(pc: Pc) {
    pc.Holding? && (pc.phase.ToAck? || pc.phase.ToReschedule? || pc.phase.ToRequeue?)
  }

  /** The queue call that ends an iteration. */
  function CallOf(pc: Pc): Call
    requires MaySettle(pc)
  {
    match pc.phase
    case ToReschedule(at) => RescheduleCall(pc.token, pc.id, at)
    case ToRequeue(count) => RequeueCall(pc.token, pc.id, count)
    case _ => AckCall(pc.token, pc.id)
  }

  /** The step that a queue call makes necessary, or none. */
  function AfterCall(q: Q, pc: Pc, landed: bool, heard: bool): Pc
    requires MaySettle(pc)
  {
    if pc.phase.ToReschedule? && !heard then Holding(pc.token, pc.id, ToRequeue(false))
    else if heard && landed && Dies(q, CallOf(pc)) then Holding(pc.token, pc.id, ToDeadLetter)
    else Idle
  }

  function Settle(s: State, k: nat, landed: bool, heard: bool): State
    requires MaySettle(At(s, k))
  {
    var op := CallOf(At(s, k));
    Go(if landed then s.(q := RunCall(s.q, op, s.now)) else s.(late := s.late + {op}), k,
       AfterCall(s.q, At(s, k), landed, heard))
  }

  /** An open statement or call takes effect. */
  function Land(s: State, op: Call): State {
    s.(late := s.late - {op}, q := RunCall(s.q, op, s.now),
       rows := if op.RowWrite? then Write(s.rows, op.id, op.w, s.now) else s.rows)
  }

  function Load(s: State, id: string, reading: Reading): Phase {
    if reading.ReadError? || id !in s.rows then ToRequeue(true)
    else if s.rows[id].status != Queued then ToAck
    else if reading.NotDue? then ToReschedule(reading.at)
    else Claiming
  }

  predicate IsEdit(w: Stmt) {
    IsStmtOk(w) && (w.CancelQueued? || w.ReconcileAccepted? || w.ReconcileFailed? || w.ProviderEvent?
        || w.EnqueueFailed?)
  }

  predicate Enabled(s: State, l: Label) {
    match l
    case Takes(k, token, _, _) => At(s, k).Idle? && Sep !in token && token !in s.used
    case Loads(k, _) => At(s, k).Holding? && At(s, k).phase.Fresh?
    case Writes(k, w, _, _) => At(s, k).Holding? && MayWrite(At(s, k).phase, w)
    case Settles(k, _, _) => MaySettle(At(s, k))
    case RecoversRows(k) => At(s, k).Idle?
    case RecoversQueue(k) => At(s, k).Idle?
    case Lists(k, ids) =>
      At(s, k).Idle? && forall id | id in ids :: id in s.rows && s.rows[id].status == Queued && s.rows[id].recovery
    case Reenqueues(k, _, _) => At(s, k).Reenqueuing? || At(s, k).Marking?
    case PromotesDue(k, ids) => At(s, k).Idle? && IsPromotion(s.q, s.now, ids)
    case Lands(op) => op in s.late
    case Creates(id, _) => id !in s.rows
    case Publishes(id, _) => id in s.rows
    case Edits(_, w) => IsEdit(w)
    case Ticks(t) => s.now <= t
    case Crashes(_) | Replays(_, _) | Prepares(_, _) | Moves(_) | Cancels(_, _) => true
  }

  /** `RecoverSending`, one queue write and one row write at a time. */
  function Reenqueue(s: State, k: nat, landed: bool, heard: bool): State {
    match At(s, k)
    case Reenqueuing(ids) =>
      if ids == [] then Go(s, k, Idle)
      else
        Go(if landed then s.(q := Enqueue(s.q, ids[0])) else s.(late := s.late + {EnqueueCall(ids[0])}), k,
           if landed && heard then Marking(ids[0], ids[1..]) else Reenqueuing(ids[1..]))
    case Marking(id, rest) => Go(Writing(s, id, RecoveryEnqueued, landed), k, Reenqueuing(rest))
    case _ => s
  }

  function Writing(s: State, id: string, w: Stmt, landed: bool): State {
    if landed then Edit(s, id, w) else s.(late := s.late + {RowWrite(id, w)})
  }

  function Take(s: State, k: nat, token: string, lease: int, heard: bool): State {
    var pc := if heard && s.q.pending != [] then Holding(token, s.q.pending[|s.q.pending| - 1], Fresh) else Idle;
    Go(s.(q := Dequeue(s.q, token, lease), used := s.used + {token}), k, pc)
  }

  function DoWrite(s: State, k: nat, w: Stmt, reply: Reply, more: bool): State
    requires At(s, k).Holding?
  {
    var pc := At(s, k);
    var next := if w.DeadLetterFailed? then Idle
                else pc.(phase := AfterWrite(pc.phase, w, Hits(s, pc.id, w), reply, more));
    Go(Writing(s, pc.id, w, Landed(reply)), k, next)
  }

  function Edit(s: State, id: string, w: Stmt): State {
    s.(rows := Write(s.rows, id, w, s.now))
  }

  /** A replay that runs to its end: the row, then the queue entry or the rollback. */
  function Replay(s: State, id: string, token: nat): State {
    if !Hits(s, id, PrepareReplay(token)) then s
    else if id in s.q.dead then Edit(s, id, PrepareReplay(token)).(q := ReplayDead(s.q, id))
    else Edit(Edit(s, id, PrepareReplay(token)), id, CancelReplay(token))
  }

  function Apply(s: State, l: Label): State
    requires Enabled(s, l)
  {
    match l
    case Takes(k, token, lease, heard) => Take(s, k, token, lease, heard)
    case Loads(k, reading) => Go(s, k, At(s, k).(phase := Load(s, At(s, k).id, reading)))
    case Writes(k, w, reply, more) => DoWrite(s, k, w, reply, more)
    case Settles(k, landed, heard) => Settle(s, k, landed, heard)
    case RecoversRows(_) => s.(rows := map id | id in s.rows :: Exec(s.rows[id], RecoverExpired, s.now))
    case Lists(k, ids) => Go(s, k, Reenqueuing(ids))
    case Reenqueues(k, landed, heard) => Reenqueue(s, k, landed, heard)
    case RecoversQueue(_) => s.(q := Recover(s.q, s.now))
    case PromotesDue(_, ids) => s.(q := Promote(s.q, ids))
    case Crashes(k) => Go(s, k, Idle)
    case Lands(op) => Land(s, op)
    case Creates(id, team) => s.(rows := s.rows[id := NewRow(team)])
    case Publishes(id, at) =>
      s.(q := if at.Some? then Schedule(s.q, id, at.value) else Enqueue(s.q, id), published := s.published + {id})
    case Edits(id, w) => Edit(s, id, w)
    case Replays(id, token) => Replay(s, id, token)
    case Prepares(id, token) => Edit(s, id, PrepareReplay(token))
    case Moves(id) => s.(q := ReplayDead(s.q, id))
    case Cancels(id, token) => Edit(s, id, CancelReplay(token))
    case Ticks(t) => s.(now := t)
  }

  function Init(): State {
    State(map[], Empty, {}, {}, map[], {}, 0)
  }

  ghost predicate Steps(ss: seq<State>, ls: seq<Label>) {
    && |ss| == |ls| + 1
    && forall i | 0 <= i < |ls| :: Enabled(ss[i], ls[i]) && ss[i + 1] == Apply(ss[i], ls[i])
  }

  ghost predicate IsTrace(ss: seq<State>, ls: seq<Label>) {
    Steps(ss, ls) && ss[0] == Init()
  }

  // ------------------------------------------------------------- what can be lost

  /** The row relies on the queue: still to be sent, and recovery will not re-enqueue it. */
  predicate NeedsQueue(s: State, id: string) {
    id in s.rows && s.rows[id].status == Queued && !s.rows[id].recovery
  }

  predicate Exposed(s: State, id: string) {
    id in s.published && NeedsQueue(s, id)
  }

  ghost predicate IsLost(s: State, id: string) {
    Exposed(s, id) && id !in Held(s.q)
  }

  /** Ids the queue will hand out, leaving aside what workers hold. */
  function Waiting(q: Q): set<string> {
    Members(q.pending) + q.scheduled.Keys + Members(q.dead)
  }

  /** The holder has claimed the row, or is about to acknowledge: if the row is queued again,
      all it will still do with this receipt is give it up. */
  predicate GivesUp(pc: Pc, r: string) {
    pc.Holding? && Encode(pc.token, pc.id) == r && (pc.phase.HasLease? || pc.phase.Started? || pc.phase.ToAck?)
  }

  /** Some holder gives the receipt up, or an acknowledgement of it is still under way. */
  ghost predicate Doomed(s: State, r: string) {
    || (exists k | k in s.loops :: GivesUp(s.loops[k], r))
    || (exists op | op in s.late :: op.AckCall? && Encode(op.token, op.id) == r)
  }

  ghost predicate Live(s: State, r: string) {
    r in s.q.processing && !Doomed(s, r)
  }

  /** The id is pending, scheduled or dead, or in processing under a receipt that nothing is
      going to give up. */
  ghost predicate Secured(s: State, id: string) {
    id in Waiting(s.q) || exists r :: Live(s, r) && IdOf(r) == id
  }

  ghost predicate Kept(s: State, id: string) {
    Exposed(s, id) ==> Secured(s, id)
  }

  /** The kinds of step after which a row may rely on a queue that does not know it: a replay's
      row write, the mark that ends a re-enqueue and the write that gives a row back, each at
      once or late, and one more dead letter on a full list. */
  predicate Exposes(s: State, l: Label, id: string) {
    && id in s.published
    && match l
       case Prepares(x, token) => x == id && Hits(s, id, PrepareReplay(token))
       case Reenqueues(k, landed, _) => landed && At(s, k).Marking? && At(s, k).id == id && NeedsMark(s, id)
       case Writes(k, w, reply, _) =>
         w.MarkRetryable? && Landed(reply) && At(s, k).Holding? && At(s, k).id == id && Hits(s, id, w)
       case Settles(k, landed, _) => MaySettle(At(s, k)) && landed && Trims(s, CallOf(At(s, k)), id)
       case Lands(op) => Trims(s, op, id) || LateExposure(s, op, id)
       case _ => false
  }

  predicate NeedsMark(s: State, id: string) {
    id in s.rows && s.rows[id].status == Queued && s.rows[id].recovery
  }

  /** The call pushes this id off a full dead list although its row relies on it. */
  predicate Trims(s: State, op: Call, id: string) {
    Dies(s.q, op) && id in PushedOff(s.q) && NeedsQueue(s, id)
  }

  predicate LateExposure(s: State, op: Call, id: string) {
    && op.RowWrite? && op.id == id
    && ((op.w.MarkRetryable? && Hits(s, id, op.w)) || (op.w.RecoveryEnqueued? && NeedsMark(s, id)))
  }

  /** The id is the new dead letter itself, or is known outside the tail of the dead list. */
  ghost predicate SecuredWithoutTheTail(s: State, own: string, id: string) {
    own == id || (|s.q.dead| >= DeadCap && Secured(s.(q := s.q.(dead := s.q.dead[..DeadCap - 1])), id))
  }

  /** What such a step has to find. A retry may count on its own receipt if the queue has not
      taken it back; the dead letter must leave the email some other place. */
  ghost predicate Guarded(s: State, l: Label, id: string)
    requires Enabled(s, l)
  {
    Exposes(s, l, id) ==>
      match l
      case Writes(k, _, _, _) => Encode(At(s, k).token, id) in s.q.processing || Secured(s, id)
      case Settles(k, _, _) => SecuredWithoutTheTail(s, At(s, k).id, id)
      case Lands(op) => if op.RequeueCall? then SecuredWithoutTheTail(s, op.id, id) else Secured(s, id)
      case _ => Secured(s, id)
  }

  ghost predicate GuardedRun(ss: seq<State>, ls: seq<Label>, id: string)
    requires Steps(ss, ls)
  {
    forall i | 0 <= i < |ls| :: Guarded(ss[i], ls[i], id)
  }

  // -------------------------------------------------------- what always holds

  ghost predicate RowsOk(s: State) {
    && s.published <= s.rows.Keys
    && forall id | id in s.rows && s.rows[id].status == Queued :: s.rows[id].state == NoAttempt
        && s.rows[id].fence.None?
  }

  ghost predicate QueueOk(s: State) {
    QR.Once(s.q.processing) && forall r | r in s.q.processing :: Tokenised(r) && QR.TokenOf(r) in s.used
  }

  ghost predicate LoopsOk(s: State) {
    && (forall k | k in s.loops && s.loops[k].Holding? :: Sep !in s.loops[k].token && s.loops[k].token in s.used)
    && (forall k, m | k in s.loops && m in s.loops && k != m && s.loops[k].Holding? && s.loops[m].Holding? ::
          s.loops[k].token != s.loops[m].token)
  }

  /** Calls under way carry tokens that were drawn, and that no loop works with any more: only
      a failed reschedule is followed by another call for the same receipt. */
  ghost predicate LateOk(s: State, op: Call) {
    match op
    case RowWrite(_, w) => IsWorkerStmt(w) || w.RecoveryEnqueued? || w.DeadLetterFailed?
    case EnqueueCall(_) => true
    case AckCall(token, _) =>
      Sep !in token && token in s.used && forall k | k in s.loops && s.loops[k].Holding? :: s.loops[k].token != token
    case _ =>
      && Sep !in op.token && op.token in s.used
      && forall k | k in s.loops && s.loops[k].Holding? && s.loops[k].token == op.token ::
           s.loops[k].phase.ToRequeue? || s.loops[k].phase.ToDeadLetter?
  }

  ghost predicate CallsOk(s: State) {
    forall op | op in s.late :: LateOk(s, op)
  }

  ghost predicate Base(s: State) {
    RowsOk(s) && QueueOk(s) && LoopsOk(s) && CallsOk(s)
  }

  /** No statement makes a row queued with an attempt or a fence on it. */
  lemma WritesKeepQueuedClean(r: Row, w: Stmt, now: int)
    requires IsStmtOk(w) && (r.status == Queued ==> r.state == NoAttempt && r.fence.None?)
    ensures var r' := Exec(r, w, now); r'.status == Queued ==> r'.state == NoAttempt && r'.fence.None?
  {
    match w
    case ProviderEvent(_, _) =>
    case _ =>
  }

  /** Only a retry, a replay and the recovery mark make a row rely on the queue. */
  lemma WritesThatLeaveCover(r: Row, w: Stmt, now: int)
    requires IsStmtOk(w) && !w.MarkRetryable? && !w.PrepareReplay? && !w.RecoveryEnqueued?
    requires r.status == Queued ==> r.state == NoAttempt
    ensures var r' := Exec(r, w, now); r'.status == Queued && !r'.recovery ==> r.status == Queued && !r.recovery
  {
    match w
    case ProviderEvent(_, _) =>
    case _ =>
  }

  lemma WriteKeepsRows(s: State, id: string, w: Stmt)
    requires RowsOk(s) && IsStmtOk(w)
    ensures RowsOk(Edit(s, id, w))
  {
    if id in s.rows {
      WritesKeepQueuedClean(s.rows[id], w, s.now);
    }
  }

  lemma RecoveryKeepsRows(s: State, k: nat)
    requires RowsOk(s) && Enabled(s, RecoversRows(k))
    ensures RowsOk(Apply(s, RecoversRows(k)))
    ensures forall id :: NeedsQueue(Apply(s, RecoversRows(k)), id) ==> NeedsQueue(s, id)
  {
    forall id | id in s.rows
      ensures NeedsQueue(Apply(s, RecoversRows(k)), id) ==> NeedsQueue(s, id)
      ensures var r := Exec(s.rows[id], RecoverExpired, s.now); r.status == Queued ==>
            r.state == NoAttempt && r.fence.None?
    {
      WritesThatLeaveCover(s.rows[id], RecoverExpired, s.now);
      WritesKeepQueuedClean(s.rows[id], RecoverExpired, s.now);
    }
  }

  lemma DropKeepsQueue(s: State, token: string, id: string, q: Q)
    requires QueueOk(s) && Sep !in token && q.processing == RemoveFirst(s.q.processing, Encode(token, id))
    ensures QueueOk(s.(q := q)) && Encode(token, id) !in q.processing
  {
    DecodingReturnsTheId(token, id);
    QR.RemovingAReceipt(s.q.processing, Encode(token, id));
    RemoveFirstDrops(s.q.processing, Encode(token, id));
  }

  lemma DequeueKeepsQueue(s: State, token: string, lease: int)
    requires QueueOk(s) && Sep !in token && token !in s.used
    ensures QueueOk(s.(q := Dequeue(s.q, token, lease), used := s.used + {token}))
  {
    if s.q.pending != [] {
      var id := s.q.pending[|s.q.pending| - 1];
      QR.TokenOfEncoded(token, id);
      DecodingReturnsTheId(token, id);
      QR.OnceCons(Encode(token, id), s.q.processing);
    }
  }

  lemma RecoverKeepsQueue(s: State, now: int)
    requires QueueOk(s)
    ensures QueueOk(s.(q := Recover(s.q, now)))
  {
    QR.SweepReceipts(s.q.processing, s.q.leases, now);
  }

  lemma RunKeepsQueue(s: State, op: Call, now: int)
    requires QueueOk(s) && LateOk(s, op)
    ensures QueueOk(s.(q := RunCall(s.q, op, now)))
  {
    if !op.RowWrite? && !op.EnqueueCall? {
      DropKeepsQueue(s, op.token, op.id, Drop(s.q, Encode(op.token, op.id)));
    }
  }

  lemma StepKeepsRows(s: State, l: Label)
    requires RowsOk(s) && CallsOk(s) && Enabled(s, l)
    ensures RowsOk(Apply(s, l))
  {
    match l
    case Writes(k, w, _, _) => WriteKeepsRows(s, At(s, k).id, w);
    case Reenqueues(k, _, _) => if At(s, k).Marking? { WriteKeepsRows(s, At(s, k).id, RecoveryEnqueued); }
    case Edits(id, w) => WriteKeepsRows(s, id, w);
    case Prepares(id, token) => WriteKeepsRows(s, id, PrepareReplay(token));
    case Cancels(id, token) => WriteKeepsRows(s, id, CancelReplay(token));
    case Replays(id, token) =>
      WriteKeepsRows(s, id, PrepareReplay(token));
      WriteKeepsRows(Edit(s, id, PrepareReplay(token)), id, CancelReplay(token));
    case RecoversRows(k) => RecoveryKeepsRows(s, k);
    case Lands(op) => if op.RowWrite? { WriteKeepsRows(s, op.id, op.w); }
    case _ =>
  }

  lemma StepKeepsQueue(s: State, l: Label)
    requires Base(s) && Enabled(s, l)
    ensures QueueOk(Apply(s, l))
  {
    match l
    case Takes(_, token, lease, _) => DequeueKeepsQueue(s, token, lease);
    case Settles(k, landed, _) => SettleKeepsQueue(s, k, landed);
    case RecoversQueue(_) => RecoverKeepsQueue(s, s.now);
    case Lands(op) => RunKeepsQueue(s, op, s.now);
    case _ => assert Apply(s, l).q.processing == s.q.processing && s.used <= Apply(s, l).used;
  }

  lemma SettleKeepsQueue(s: State, k: nat, landed: bool)
    requires Base(s) && MaySettle(At(s, k))
    ensures landed ==> QueueOk(s.(q := RunCall(s.q, CallOf(At(s, k)), s.now)))
  {
    var pc := At(s, k);
    DropKeepsQueue(s, pc.token, pc.id, Drop(s.q, Encode(pc.token, pc.id)));
  }

  /** A loop goes on with its own token, a fresh one, or none. */
  lemma GoingKeepsLoops(s: State, s': State, k: nat, pc: Pc)
    requires LoopsOk(s) && s.used <= s'.used && s'.loops == s.loops[k := pc]
    requires pc.Holding? ==> Sep !in pc.token && pc.token in s'.used
    requires pc.Holding? ==> pc.token !in s.used || (At(s, k).Holding? && At(s, k).token == pc.token)
    ensures LoopsOk(s')
  {}

  lemma StepKeepsLoops(s: State, l: Label)
    requires Base(s) && Enabled(s, l)
    ensures LoopsOk(Apply(s, l))
  {
    var s' := Apply(s, l);
    match l
    case Takes(k, _, _, _) => GoingKeepsLoops(s, s', k, s'.loops[k]);
    case Loads(k, _) => GoingKeepsLoops(s, s', k, s'.loops[k]);
    case Writes(k, _, _, _) => GoingKeepsLoops(s, s', k, s'.loops[k]);
    case Settles(k, _, _) => GoingKeepsLoops(s, s', k, s'.loops[k]);
    case Lists(k, _) => GoingKeepsLoops(s, s', k, s'.loops[k]);
    case Reenqueues(k, _, _) => GoingKeepsLoops(s, s', k, s'.loops[k]);
    case Crashes(k) => GoingKeepsLoops(s, s', k, Idle);
    case _ =>
  }

  /** A loop goes on; what is under way for other tokens is not concerned. */
  lemma GoingKeepsCalls(s: State, s': State, k: nat, pc: Pc)
    requires CallsOk(s) && s.used <= s'.used && s'.loops == s.loops[k := pc] && s'.late <= s.late
    requires pc.Holding? ==> pc.token !in s.used || (At(s, k).Holding? && At(s, k).token == pc.token)
    requires pc.Holding? && pc.token in s.used ==>
               pc.phase == At(s, k).phase || pc.phase.ToRequeue? || pc.phase.ToDeadLetter?
               || !(At(s, k).phase.ToRequeue? || At(s, k).phase.ToDeadLetter?)
    ensures CallsOk(s')
  {
    forall op | op in s'.late ensures LateOk(s', op) {
      assert LateOk(s, op);
    }
  }

  /** A call joins those under way when its loop has gone on. */
  lemma JoiningKeepsCalls(s: State, op: Call)
    requires CallsOk(s) && LateOk(s, op)
    ensures CallsOk(s.(late := s.late + {op}))
  {
    forall x | x in s.late + {op} ensures LateOk(s.(late := s.late + {op}), x) {
      assert LateOk(s, x);
    }
  }

  lemma SettleKeepsCalls(s: State, k: nat, landed: bool, heard: bool)
    requires Base(s) && MaySettle(At(s, k))
    ensures CallsOk(Settle(s, k, landed, heard))
  {
    var s', pc := Settle(s, k, landed, heard), At(s, k);
    var gone := s'.(late := s.late);
    GoingKeepsCalls(s, gone, k, s'.loops[k]);
    if !landed {
      assert LateOk(gone, CallOf(pc));
      JoiningKeepsCalls(gone, CallOf(pc));
    }
  }

  lemma WriteKeepsCalls(s: State, k: nat, w: Stmt, reply: Reply, more: bool)
    requires Base(s) && Enabled(s, Writes(k, w, reply, more))
    ensures CallsOk(DoWrite(s, k, w, reply, more))
  {
    var s', pc := DoWrite(s, k, w, reply, more), At(s, k);
    var gone := s'.(late := s.late);
    GoingKeepsCalls(s, gone, k, s'.loops[k]);
    JoiningKeepsCalls(gone, RowWrite(pc.id, w));
  }

  lemma ReenqueueKeepsCalls(s: State, k: nat, landed: bool, heard: bool)
    requires Base(s) && Enabled(s, Reenqueues(k, landed, heard))
    ensures CallsOk(Reenqueue(s, k, landed, heard))
  {
    var s' := Reenqueue(s, k, landed, heard);
    var gone := s'.(late := s.late);
    GoingKeepsCalls(s, gone, k, s'.loops[k]);
    match At(s, k)
    case Reenqueuing(ids) => if ids != [] { JoiningKeepsCalls(gone, EnqueueCall(ids[0])); }
    case Marking(id, _) => JoiningKeepsCalls(gone, RowWrite(id, RecoveryEnqueued));
  }

  lemma StepKeepsCalls(s: State, l: Label)
    requires Base(s) && Enabled(s, l)
    ensures CallsOk(Apply(s, l))
  {
    var s' := Apply(s, l);
    match l
    case Takes(k, _, _, _) => GoingKeepsCalls(s, s', k, s'.loops[k]);
    case Loads(k, _) => GoingKeepsCalls(s, s', k, s'.loops[k]);
    case Writes(k, w, reply, more) => WriteKeepsCalls(s, k, w, reply, more);
    case Settles(k, landed, heard) => SettleKeepsCalls(s, k, landed, heard);
    case Lists(k, _) => GoingKeepsCalls(s, s', k, s'.loops[k]);
    case Reenqueues(k, landed, heard) => ReenqueueKeepsCalls(s, k, landed, heard);
    case Crashes(k) => GoingKeepsCalls(s, s', k, Idle);
    case _ =>
      forall op | op in s'.late ensures LateOk(s', op) {
        assert LateOk(s, op);
      }
  }

  lemma StepKeepsBase(s: State, l: Label)
    requires Base(s) && Enabled(s, l)
    ensures Base(Apply(s, l))
  {
    StepKeepsRows(s, l);
    StepKeepsQueue(s, l);
    StepKeepsLoops(s, l);
    StepKeepsCalls(s, l);
  }

  lemma {:induction false} BaseHolds(ss: seq<State>, ls: seq<Label>, i: nat)
    requires Steps(ss, ls) && Base(ss[0]) && i < |ss|
    ensures Base(ss[i])
  {
    if i > 0 {
      BaseHolds(ss, ls, i - 1);
      StepKeepsBase(ss[i - 1], ls[i - 1]);
    }
  }

  // ------------------------------------------------------ guarded steps keep it

  lemma HeldReceipt(q: Q, r: string)
    requires r in q.processing
    ensures IdOf(r) in Held(q)
  {
    InIds(q.processing, IdOf(r));
  }

  lemma SecuredIsHeld(s: State, id: string)
    requires Secured(s, id)
    ensures id in Held(s.q)
  {
    if id !in Waiting(s.q) {
      var r :| Live(s, r) && IdOf(r) == id;
      HeldReceipt(s.q, r);
    }
  }

  /** Enough of the queue is still there. */
  lemma SecuredStays(s: State, s': State, id: string)
    requires Secured(s, id)
    requires id in Waiting(s.q) ==> Secured(s', id)
    requires forall r | Live(s, r) && IdOf(r) == id :: Live(s', r) || id in Waiting(s'.q)
    ensures Secured(s', id)
  {
    if id !in Waiting(s.q) {
      var r :| Live(s, r) && IdOf(r) == id;
      assert Live(s', r) || id in Waiting(s'.q);
    }
  }

  /** A receipt that is doomed belongs to its holder, or to the acknowledgement under way. */
  lemma DoomedBy(s: State, token: string, id: string)
    requires LoopsOk(s) && CallsOk(s) && Sep !in token && Doomed(s, Encode(token, id))
    ensures || (exists k | k in s.loops ::
          s.loops[k].Holding? && s.loops[k].token == token && GivesUp(s.loops[k], Encode(token, id)))
            || AckCall(token, id) in s.late
  {
    if k :| k in s.loops && GivesUp(s.loops[k], Encode(token, id)) {
      ReceiptsAreUnambiguous(s.loops[k].token, s.loops[k].id, token, id);
    } else {
      var op :| op in s.late && op.AckCall? && Encode(op.token, op.id) == Encode(token, id);
      assert LateOk(s, op);
      ReceiptsAreUnambiguous(op.token, op.id, token, id);
    }
  }

  /** Everything that knew the id still does, and no more receipts of it are doomed. */
  lemma NothingMoreDoomed(s: State, s': State, id: string)
    requires Secured(s, id) && (id in Waiting(s.q) ==> id in Waiting(s'.q))
    requires forall r | r in s.q.processing && IdOf(r) == id :: r in s'.q.processing
    requires forall r | IdOf(r) == id && Doomed(s', r) :: Doomed(s, r)
    ensures Secured(s', id)
  {
    SecuredStays(s, s', id);
  }

  /** One loop moves on; what it gives up afterwards for this email it gave up before, and calls
      that join those under way are no acknowledgements. */
  lemma MovingOn(s: State, s': State, k: nat, pc: Pc, id: string)
    requires Secured(s, id) && s'.loops == s.loops[k := pc] && forall op | op in s'.late && op.AckCall? :: op in s.late
    requires (id in Waiting(s.q) ==> id in Waiting(s'.q)) && s'.q.processing == s.q.processing
    requires forall r | GivesUp(pc, r) && IdOf(r) == id :: GivesUp(At(s, k), r)
    ensures Secured(s', id)
  {
    NothingMoreDoomed(s, s', id);
  }

  /** Positions that give up the receipt of another email do not matter to this one. */
  lemma OtherEmail(pc: Pc, id: string)
    requires pc.Holding? && Sep !in pc.token && pc.id != id
    ensures forall r | GivesUp(pc, r) :: IdOf(r) != id
  {
    DecodingReturnsTheId(pc.token, pc.id);
  }

  lemma TakeKeeps(s: State, k: nat, token: string, lease: int, heard: bool, id: string)
    requires Base(s) && Secured(s, id) && Enabled(s, Takes(k, token, lease, heard))
    ensures Secured(Take(s, k, token, lease, heard), id)
  {
    var s' := Take(s, k, token, lease, heard);
    if s.q.pending != [] {
      var n := |s.q.pending| - 1;
      var last := s.q.pending[n];
      var r := Encode(token, last);
      assert s.q.pending == s.q.pending[..n] + [last];
      DecodingReturnsTheId(token, last);
      FreshIsNotDoomed(s, token, last);
      assert Live(s', r);
    }
    forall r | Live(s, r) && IdOf(r) == id ensures Live(s', r) {}
    SecuredStays(s, s', id);
  }

  lemma FreshIsNotDoomed(s: State, token: string, id: string)
    requires LoopsOk(s) && CallsOk(s) && Sep !in token && token !in s.used
    ensures !Doomed(s, Encode(token, id))
  {
    assert AckCall(token, id) in s.late ==> LateOk(s, AckCall(token, id));
    if Doomed(s, Encode(token, id)) {
      DoomedBy(s, token, id);
    }
  }

  lemma LoadKeeps(s: State, k: nat, reading: Reading, id: string)
    requires Base(s) && Enabled(s, Loads(k, reading)) && Secured(s, id) && Exposed(s, id)
    ensures Secured(Apply(s, Loads(k, reading)), id)
  {
    var pc := At(s, k);
    var next := pc.(phase := Load(s, pc.id, reading));
    if pc.id != id { OtherEmail(next, id); }
    MovingOn(s, Go(s, k, next), k, next, id);
  }

  /** A write that does not make the row rely on the queue. */
  lemma QuietWriteKeeps(s: State, k: nat, w: Stmt, reply: Reply, more: bool, id: string)
    requires Base(s) && Enabled(s, Writes(k, w, reply, more)) && Secured(s, id)
    requires Exposed(DoWrite(s, k, w, reply, more), id) && Exposed(s, id)
    ensures Secured(DoWrite(s, k, w, reply, more), id)
  {
    var pc, s' := At(s, k), DoWrite(s, k, w, reply, more);
    if pc.id != id && s'.loops[k].Holding? { OtherEmail(s'.loops[k], id); }
    MovingOn(s, s', k, s'.loops[k], id);
  }

  lemma NotExposedBefore(s: State, l: Label, id: string)
    requires Base(s) && Enabled(s, l) && !Exposes(s, l, id) && !l.Publishes? && !l.Replays?
    requires Exposed(Apply(s, l), id)
    ensures Exposed(s, id)
  {
    match l
    case Writes(k, w, _, _) =>
      if At(s, k).id in s.rows && !w.MarkRetryable? { WritesThatLeaveCover(s.rows[At(s, k).id], w, s.now); }
    case Edits(x, w) => if x in s.rows { WritesThatLeaveCover(s.rows[x], w, s.now); }
    case Cancels(x, token) => if x in s.rows { WritesThatLeaveCover(s.rows[x], CancelReplay(token), s.now); }
    case RecoversRows(k) => RecoveryKeepsRows(s, k);
    case Lands(op) => LandsQuietly(s, op, id);
    case _ =>
  }

  lemma LandsQuietly(s: State, op: Call, id: string)
    requires Base(s) && op in s.late && !LateExposure(s, op, id) && Exposed(Land(s, op), id)
    ensures Exposed(s, id)
  {
    assert LateOk(s, op);
    if op.RowWrite? && op.id in s.rows && !op.w.MarkRetryable? && !op.w.RecoveryEnqueued? {
      WritesThatLeaveCover(s.rows[op.id], op.w, s.now);
    }
  }

  /** A retry secures its email with its own receipt, if the queue still has that receipt. */
  lemma RetryKeeps(s: State, k: nat, w: Stmt, reply: Reply, more: bool, id: string)
    requires Base(s) && Enabled(s, Writes(k, w, reply, more)) && Exposes(s, Writes(k, w, reply, more), id)
    requires Encode(At(s, k).token, id) in s.q.processing || Secured(s, id)
    ensures Secured(DoWrite(s, k, w, reply, more), id)
  {
    var pc, s' := At(s, k), DoWrite(s, k, w, reply, more);
    var r := Encode(pc.token, id);
    DecodingReturnsTheId(pc.token, id);
    if r in s.q.processing {
      StepKeepsLoops(s, Writes(k, w, reply, more));
      StepKeepsCalls(s, Writes(k, w, reply, more));
      OwnReceiptIsNotDoomed(s', k, pc.token, id);
      assert Live(s', r);
    } else {
      MovingOn(s, s', k, s'.loops[k], id);
    }
  }

  lemma OwnReceiptIsNotDoomed(s: State, k: nat, token: string, id: string)
    requires LoopsOk(s) && CallsOk(s) && At(s, k) == Holding(token, id, ToRequeue(true))
    ensures !Doomed(s, Encode(token, id))
  {
    assert AckCall(token, id) in s.late ==> LateOk(s, AckCall(token, id));
    if Doomed(s, Encode(token, id)) {
      DoomedBy(s, token, id);
    }
  }

  // -- queue calls

  predicate HasReceipt(op: Call) {
    op.AckCall? || op.RequeueCall? || op.RescheduleCall?
  }

  /** A rescheduled or retried email waits in the queue afterwards. */
  lemma OwnReceiptWaits(q: Q, op: Call, now: int)
    requires (op.RequeueCall? || op.RescheduleCall?) && Encode(op.token, op.id) in q.processing
    ensures op.id in Waiting(RunCall(q, op, now))
  {
    var q' := RunCall(q, op, now);
    if Dies(q, op) {
      assert q'.dead[0] == op.id;
      assert op.id in q'.dead;
    }
  }

  lemma OtherReceiptsStay(q: Q, op: Call, now: int, r: string)
    requires r in q.processing && (HasReceipt(op) ==> r != Encode(op.token, op.id))
    ensures r in RunCall(q, op, now).processing
  {
    if HasReceipt(op) {
      RemoveFirstDrops(q.processing, Encode(op.token, op.id));
    }
  }

  lemma WaitingAfterRun(q: Q, op: Call, now: int, id: string)
    requires id in Waiting(q) && !(Dies(q, op) && id in PushedOff(q))
    ensures id in Waiting(RunCall(q, op, now))
  {
    if Dies(q, op) {
      var pushed := [op.id] + q.dead;
      assert forall x | x in q.dead :: x in pushed;
      if |pushed| > DeadCap {
        assert pushed == pushed[..DeadCap] + q.dead[DeadCap - 1..];
      }
    }
  }

  /** A queue call, at once or late: an acknowledgement only takes a doomed receipt. */
  lemma RunKeeps(s: State, s': State, op: Call, id: string)
    requires Secured(s, id) && s'.q == RunCall(s.q, op, s.now) && !(Dies(s.q, op) && id in PushedOff(s.q))
    requires HasReceipt(op) ==> Sep !in op.token
    requires op.AckCall? ==> Doomed(s, Encode(op.token, op.id))
    requires forall r | IdOf(r) == id && Doomed(s', r) :: Doomed(s, r)
    ensures Secured(s', id)
  {
    if id in Waiting(s.q) {
      WaitingAfterRun(s.q, op, s.now, id);
    } else {
      var r :| Live(s, r) && IdOf(r) == id;
      if HasReceipt(op) && r == Encode(op.token, op.id) {
        DecodingReturnsTheId(op.token, op.id);
        OwnReceiptWaits(s.q, op, s.now);
      } else {
        OtherReceiptsStay(s.q, op, s.now, r);
        assert Live(s', r);
      }
    }
  }

  lemma SettleKeeps(s: State, k: nat, landed: bool, heard: bool, id: string)
    requires Base(s) && MaySettle(At(s, k)) && Secured(s, id)
    requires landed ==> !(Dies(s.q, CallOf(At(s, k))) && id in PushedOff(s.q))
    ensures Secured(Settle(s, k, landed, heard), id)
  {
    var s', op := Settle(s, k, landed, heard), CallOf(At(s, k));
    SettlingDoomsNothing(s, k, landed, heard);
    if landed {
      RunKeeps(s, s', op, id);
    } else {
      NothingMoreDoomed(s, s', id);
    }
  }

  /** Before the acknowledgement its holder gave the receipt up; if the call is still under way
      it does. */
  lemma SettlingDoomsNothing(s: State, k: nat, landed: bool, heard: bool)
    requires Base(s) && MaySettle(At(s, k))
    ensures forall r | Doomed(Settle(s, k, landed, heard), r) :: Doomed(s, r)
    ensures CallOf(At(s, k)).AckCall? ==> Doomed(s, Encode(At(s, k).token, At(s, k).id))
    ensures !CallOf(At(s, k)).AckCall? ==> forall r :: Doomed(Settle(s, k, landed, heard), r) <==> Doomed(s, r)
  {
    var s', pc := Settle(s, k, landed, heard), At(s, k);
    assert k in s.loops && s'.loops == s.loops[k := s'.loops[k]];
    assert forall r :: !GivesUp(s'.loops[k], r);
    if pc.phase.ToAck? { assert GivesUp(s.loops[k], Encode(pc.token, pc.id)); }
    forall r | Doomed(s', r) ensures Doomed(s, r) {
      if m :| m in s'.loops && GivesUp(s'.loops[m], r) {
        assert m in s.loops && GivesUp(s.loops[m], r);
      }
    }
    if !pc.phase.ToAck? {
      forall r | Doomed(s, r) ensures Doomed(s', r) {
        if m :| m in s.loops && GivesUp(s.loops[m], r) {
          assert m in s'.loops && GivesUp(s'.loops[m], r);
        }
      }
    }
  }

  lemma LandKeeps(s: State, op: Call, id: string)
    requires Base(s) && op in s.late && Secured(s, id) && !(Dies(s.q, op) && id in PushedOff(s.q))
    ensures Secured(Land(s, op), id)
  {
    assert LateOk(s, op);
    RunKeeps(s, Land(s, op), op, id);
  }

  /** A dead letter on a full list leaves the id secured exactly if it is known elsewhere. */
  lemma TrimSecuredIff(s: State, s': State, op: Call, id: string)
    requires QueueOk(s) && Trims(s, op, id) && Sep !in op.token && s'.q == RunCall(s.q, op, s.now)
    requires forall r :: Doomed(s', r) <==> Doomed(s, r)
    ensures Secured(s', id) <==> SecuredWithoutTheTail(s, op.id, id)
  {
    var r0 := Encode(op.token, op.id);
    DecodingReturnsTheId(op.token, op.id);
    DropKeepsQueue(s, op.token, op.id, Drop(s.q, r0));
    RemoveFirstDrops(s.q.processing, r0);
    assert s'.q.dead == [op.id] + s.q.dead[..DeadCap - 1];
    var cut := s.(q := s.q.(dead := s.q.dead[..DeadCap - 1]));
    assert forall r :: Doomed(cut, r) <==> Doomed(s, r);
    if op.id == id {
      assert id in s'.q.dead;
    } else {
      assert id in Waiting(s'.q) <==> id in Waiting(cut.q);
      forall r | IdOf(r) == id ensures Live(s', r) <==> Live(cut, r) {
        assert r != r0 && (r in s'.q.processing <==> r in cut.q.processing);
      }
    }
  }

  lemma TrimBySettling(s: State, k: nat, heard: bool, id: string)
    requires Base(s) && MaySettle(At(s, k)) && Trims(s, CallOf(At(s, k)), id)
    ensures Secured(Settle(s, k, true, heard), id) <==> SecuredWithoutTheTail(s, At(s, k).id, id)
  {
    SettlingDoomsNothing(s, k, true, heard);
    TrimSecuredIff(s, Settle(s, k, true, heard), CallOf(At(s, k)), id);
  }

  lemma TrimByLanding(s: State, op: Call, id: string)
    requires Base(s) && op in s.late && Trims(s, op, id)
    ensures Secured(Land(s, op), id) <==> SecuredWithoutTheTail(s, op.id, id)
  {
    assert LateOk(s, op);
    TrimSecuredIff(s, Land(s, op), op, id);
  }

  // -- the other steps

  lemma RecoverKeeps(s: State, now: int, id: string)
    requires Secured(s, id)
    ensures Secured(s.(q := Recover(s.q, now)), id)
  {
    var s' := s.(q := Recover(s.q, now));
    SweepSplits(s.q.processing, s.q.leases, now);
    forall r | Live(s, r) && IdOf(r) == id ensures Live(s', r) || id in Waiting(s'.q) {
      var moved := Sweep(s.q.processing, s.q.leases, now).moved;
      if r in moved { InIds(moved, id); }
    }
    SecuredStays(s, s', id);
  }

  lemma {:induction false} SweepSplits(items: seq<string>, leases: map<string, int>, now: int)
    ensures var w := Sweep(items, leases, now); forall x :: x in items ==> x in w.moved || x in w.kept
    decreases |items|
  {
    if items != [] {
      var l := LeasesAfter(items[0], leases, now);
      SweepSplits(items[1..], l, now);
      assert forall x | x in items :: x == items[0] || x in items[1..];
      SweepStep(items, leases, now);
    }
  }

  lemma QueueGrows(s: State, s': State, id: string)
    requires Secured(s, id) && s'.loops == s.loops && s'.late == s.late && s'.q.processing == s.q.processing
    requires id in Waiting(s.q) ==> id in Waiting(s'.q)
    ensures Secured(s', id)
  {
    NothingMoreDoomed(s, s', id);
  }

  lemma ReplayKeeps(s: State, x: string, token: nat, id: string)
    requires Base(s) && Kept(s, id)
    ensures Kept(Replay(s, x, token), id)
  {
    var s' := Replay(s, x, token);
    if Hits(s, x, PrepareReplay(token)) {
      RemoveFirstDrops(s.q.dead, x);
      if x in s.q.dead {
        if id == x { assert x in s'.q.pending; }
      } else {
        assert Exec(Exec(s.rows[x], PrepareReplay(token), s.now), CancelReplay(token), s.now).status == Failed;
      }
      if Secured(s, id) { QueueGrows(s, s', id); }
    }
  }

  lemma ReenqueueKeeps(s: State, k: nat, landed: bool, heard: bool, id: string)
    requires Base(s) && Enabled(s, Reenqueues(k, landed, heard)) && Secured(s, id)
    ensures Secured(Reenqueue(s, k, landed, heard), id)
  {
    var s' := Reenqueue(s, k, landed, heard);
    MovingOn(s, s', k, s'.loops[k], id);
  }

  lemma PromoteKeeps(s: State, ids: seq<string>, id: string)
    requires IsPromotion(s.q, s.now, ids) && Secured(s, id)
    ensures Secured(s.(q := Promote(s.q, ids)), id)
  {
    PushAllHolds(s.q.pending, ids);
    QueueGrows(s, s.(q := Promote(s.q, ids)), id);
  }

  /** Steps that do not expose the email leave it secured. */
  lemma QuietStepKeeps(s: State, l: Label, id: string)
    requires Base(s) && Enabled(s, l) && !Exposes(s, l, id) && Secured(s, id) && Exposed(s, id)
    requires Exposed(Apply(s, l), id)
    ensures Secured(Apply(s, l), id)
  {
    match l
    case Takes(k, token, lease, heard) => TakeKeeps(s, k, token, lease, heard, id);
    case Loads(k, reading) => LoadKeeps(s, k, reading, id);
    case Writes(k, w, reply, more) => QuietWriteKeeps(s, k, w, reply, more, id);
    case Settles(k, landed, heard) => SettleKeeps(s, k, landed, heard, id);
    case Reenqueues(k, landed, heard) => ReenqueueKeeps(s, k, landed, heard, id);
    case RecoversQueue(_) => RecoverKeeps(s, s.now, id);
    case PromotesDue(_, ids) => PromoteKeeps(s, ids, id);
    case Crashes(k) => MovingOn(s, Go(s, k, Idle), k, Idle, id);
    case Lists(k, ids) => MovingOn(s, Go(s, k, Reenqueuing(ids)), k, Reenqueuing(ids), id);
    case Lands(op) => LandKeeps(s, op, id);
    case Moves(x) =>
      RemoveFirstDrops(s.q.dead, x);
      QueueGrows(s, Apply(s, l), id);
    case Replays(x, token) => ReplayKeeps(s, x, token, id);
    case _ => QueueGrows(s, Apply(s, l), id);
  }

  lemma ExposingStepKeeps(s: State, l: Label, id: string)
    requires Base(s) && Enabled(s, l) && Exposes(s, l, id) && Guarded(s, l, id)
    ensures Secured(Apply(s, l), id)
  {
    match l
    case Writes(k, w, reply, more) => RetryKeeps(s, k, w, reply, more, id);
    case Reenqueues(k, landed, heard) => ReenqueueKeeps(s, k, landed, heard, id);
    case Prepares(_, _) => QueueGrows(s, Apply(s, l), id);
    case Settles(k, _, heard) => TrimBySettling(s, k, heard, id);
    case Lands(op) => if op.RequeueCall? { TrimByLanding(s, op, id); } else { LandKeeps(s, op, id); }
  }

  lemma StepKeepsKept(s: State, l: Label, id: string)
    requires Base(s) && Enabled(s, l) && Kept(s, id) && Guarded(s, l, id)
    ensures Kept(Apply(s, l), id)
  {
    if Exposes(s, l, id) {
      ExposingStepKeeps(s, l, id);
    } else if l.Replays? {
      ReplayKeeps(s, l.id, l.replayToken, id);
    } else if l.Publishes? {
      if Secured(s, id) { QueueGrows(s, Apply(s, l), id); }
    } else if Exposed(Apply(s, l), id) {
      NotExposedBefore(s, l, id);
      QuietStepKeeps(s, l, id);
    }
  }

  lemma {:induction false} KeptHolds(ss: seq<State>, ls: seq<Label>, id: string, i: nat)
    requires Steps(ss, ls) && Base(ss[0]) && Kept(ss[0], id) && GuardedRun(ss, ls, id) && i < |ss|
    ensures Kept(ss[i], id)
  {
    if i > 0 {
      KeptHolds(ss, ls, id, i - 1);
      BaseHolds(ss, ls, i - 1);
      StepKeepsKept(ss[i - 1], ls[i - 1], id);
    }
  }

  /** With any number of loops, and whatever lands late: a published email that is still queued
      and not flagged for recovery has its id in pending, processing, scheduled or dead, in every
      state of every run whose exposing steps found what they need. */
  lemma NoQueuedEmailIsLost(ss: seq<State>, ls: seq<Label>, id: string, i: nat)
    requires IsTrace(ss, ls) && GuardedRun(ss, ls, id) && i < |ss|
    ensures !IsLost(ss[i], id)
  {
    KeptHolds(ss, ls, id, i);
    if Secured(ss[i], id) { SecuredIsHeld(ss[i], id); }
  }

  // ------------------------------------------------------------------ one loop

  /** Only loop 0 runs, no replay is interrupted, and no retry or recovery mark lands late. */
  predicate Solo(l: Label) {
    match l
    case Takes(k, _, _, _) => k == 0
    case Loads(k, _) => k == 0
    case Writes(k, _, _, _) => k == 0
    case Settles(k, _, _) => k == 0
    case RecoversRows(k) => k == 0
    case Lists(k, _) => k == 0
    case Reenqueues(k, _, _) => k == 0
    case RecoversQueue(k) => k == 0
    case PromotesDue(k, _) => k == 0
    case Crashes(k) => k == 0
    case Prepares(_, _) => false
    case Lands(op) => op.RowWrite? ==> !op.w.MarkRetryable? && !op.w.RecoveryEnqueued?
    case _ => true
  }

  predicate SoloInv(s: State) {
    && s.loops.Keys <= {0}
    && match At(s, 0)
       case Holding(token, id, phase) =>
         phase.Fresh? || phase.Claiming? || phase.HasLease? || phase.Started? ==> Encode(token, id) in s.q.processing
       case Marking(id, _) => id in s.q.pending
       case _ => true
  }

  lemma LandingKeepsSolo(s: State, op: Call)
    requires Base(s) && SoloInv(s) && op in s.late
    ensures SoloInv(Land(s, op))
  {
    assert LateOk(s, op);
    var pc := At(s, 0);
    if pc.Holding? && HasReceipt(op) && Encode(pc.token, pc.id) in s.q.processing {
      if op.token == pc.token {
        assert pc.phase.ToRequeue? || pc.phase.ToDeadLetter?;
      } else {
        if Encode(pc.token, pc.id) == Encode(op.token, op.id) {
          ReceiptsAreUnambiguous(pc.token, pc.id, op.token, op.id);
        }
        OtherReceiptsStay(s.q, op, s.now, Encode(pc.token, pc.id));
      }
    }
  }

  lemma StepKeepsSolo(s: State, l: Label)
    requires Base(s) && SoloInv(s) && Enabled(s, l) && Solo(l)
    ensures SoloInv(Apply(s, l))
  {
    if l.Lands? { LandingKeepsSolo(s, l.op); }
  }

  /** The step pushes this id off a full dead list although its row relies on it. */
  predicate TrimsAt(s: State, l: Label, id: string) {
    match l
    case Settles(k, landed, _) => MaySettle(At(s, k)) && landed && Trims(s, CallOf(At(s, k)), id)
    case Lands(op) => Trims(s, op, id)
    case _ => false
  }

  lemma SoloIsGuarded(s: State, l: Label, id: string)
    requires SoloInv(s) && Enabled(s, l) && Solo(l) && !TrimsAt(s, l, id)
    ensures Guarded(s, l, id)
  {}

  lemma {:induction false} SoloHolds(ss: seq<State>, ls: seq<Label>, i: nat)
    requires IsTrace(ss, ls) && (forall l | l in ls :: Solo(l)) && i < |ss|
    ensures SoloInv(ss[i])
  {
    if i > 0 {
      SoloHolds(ss, ls, i - 1);
      BaseHolds(ss, ls, i - 1);
      assert ls[i - 1] in ls;
      StepKeepsSolo(ss[i - 1], ls[i - 1]);
    }
  }

  /** One loop needs no guards: whatever crashes, fails or is interleaved, an email is lost only
      if a full dead list drops it. */
  lemma OneLoopLosesNothing(ss: seq<State>, ls: seq<Label>, id: string, i: nat)
    requires IsTrace(ss, ls) && (forall l | l in ls :: Solo(l)) && i < |ss|
    requires forall j | 0 <= j < |ls| :: !TrimsAt(ss[j], ls[j], id)
    ensures !IsLost(ss[i], id)
  {
    forall j | 0 <= j < |ls| ensures Guarded(ss[j], ls[j], id) {
      SoloHolds(ss, ls, j);
      assert ls[j] in ls;
      SoloIsGuarded(ss[j], ls[j], id);
    }
    NoQueuedEmailIsLost(ss, ls, id, i);
  }

  lemma NothingIsTrimmedBelowTheCap(s: State, l: Label, id: string)
    requires |s.q.dead| < DeadCap
    ensures !TrimsAt(s, l, id)
  {}
}
