/** The provider-event inbox, the webhook outbox and the webhook deliveries
    (internal/repository/delivery_pipeline_repo.go, internal/repository/webhook_delivery_repo.go).
    Each table is keyed by the column its ON CONFLICT clause names. */
module Pipeline {
  import opened EmailDomain

  const LeaseSeconds := 60
  const MaxDeliveryAttempts := 5

  datatype InboxStatus = Pending | Processing | Processed | Ignored
  datatype OutboxStatus = OutPending | OutProcessing | Dispatched | OutFailed
  datatype DeliveryStatus = Waiting | InFlight | Delivered | GaveUp
  datatype Class = Outbound | Inbound

  datatype InboxRow = InboxRow(
    pid: string, kind: string, hasPayload: bool, emailId: Option<nat>, attemptId: Option<nat>,
    status: InboxStatus, attempts: nat, nextAt: int, lease: Option<int>, created: int)

  datatype OutboxRow = OutboxRow(
    team: nat, event: string, hasPayload: bool, class_: Class, status: OutboxStatus, nextAt: int, lease: Option<int>,
    created: int)

  datatype Delivery = Delivery(
    hasPayload: bool, class_: Class, status: DeliveryStatus, attempts: nat, nextAt: int, lease: Option<int>,
    created: int)

  datatype Webhook = Webhook(team: nat, active: bool, events: set<string>)

  /** A delivery is keyed by (webhook, event). */
  type Key = (nat, nat)

  datatype P = P(
    inbox: map<nat, InboxRow>,
    recorded: seq<nat>,                // email_events inserted by callbacks, in order
    outbox: map<nat, OutboxRow>,
    deliveries: map<Key, Delivery>,
    webhooks: map<nat, Webhook>,
    now: int,
    // history
    dispatches: seq<nat>,              // events whose dispatch committed, in order
    recipients: map<nat, set<nat>>)    // the webhooks subscribed at that moment

  // --------------------------------------------------------------------- inbox

  function StoreEvent(p: P, e: nat, row: InboxRow): P {
    if e in p.inbox then p
    else p.(inbox := p.inbox[e := row.(hasPayload := true, status := Pending, attempts := 0, nextAt := p.now,
                                       lease := None, created := p.now)])
  }

  predicate Claimable(r: InboxRow, now: int) {
    r.status == Pending && r.nextAt <= now && r.hasPayload
  }

  function ClaimEvent(p: P, e: nat): P {
    if e in p.inbox && Claimable(p.inbox[e], p.now)
    then var r := p.inbox[e];
         p.(inbox := p.inbox[e := r.(status := Processing, attempts := r.attempts + 1,
                                     lease := Some(p.now + LeaseSeconds))])
    else p
  }

  function RetryEvent(p: P, e: nat, at: int, terminal: bool): P {
    if e in p.inbox && p.inbox[e].status == Processing
    then p.(inbox := p.inbox[e := p.inbox[e].(status := if terminal then Ignored else Pending, nextAt := at,
                                              lease := None)])
    else p
  }

  /** The effects of `ApplyProviderEvent` outside the email row. The event and outbox inserts
      do not look at the inbox status, only the last UPDATE does. */
  function ApplyEvent(p: P, e: nat, email: nat, out: OutboxRow): P {
    p.(recorded := if e in p.recorded then p.recorded else p.recorded + [e],
       outbox := if e in p.outbox then p.outbox else p.outbox[e := Fresh(out, p.now)],
       inbox := if e in p.inbox && p.inbox[e].status == Processing
                then p.inbox[e := p.inbox[e].(status := Processed, emailId := Some(email), lease := None)]
                else p.inbox)
  }

  /** `FinalizeAccepted` wakes correlated inbox work that nobody holds. */
  function WakeRow(r: InboxRow, email: nat, attempt: nat, pid: string, now: int): InboxRow {
    if r.status in {Pending, Processing} && (r.emailId == Some(email) || r.attemptId == Some(attempt) || r.pid == pid)
    then var held := r.status == Processing && r.lease.Some? && r.lease.value >= now;
         r.(status := if held then Processing else Pending, nextAt := now, lease := if held then r.lease else None)
    else r
  }

  function Wake(p: P, email: nat, attempt: nat, pid: string): P {
    p.(inbox := map e | e in p.inbox :: WakeRow(p.inbox[e], email, attempt, pid, p.now))
  }

  // -------------------------------------------------------------------- outbox

  function Fresh(out: OutboxRow, now: int): OutboxRow {
    out.(hasPayload := true, status := OutPending, nextAt := now, lease := None, created := now)
  }

  predicate Dispatchable(p: P, e: nat) {
    e in p.outbox && p.outbox[e].status == OutPending && p.outbox[e].nextAt <= p.now && p.outbox[e].hasPayload
  }

  function Subscribed(p: P, out: OutboxRow): set<nat> {
    set w | w in p.webhooks && p.webhooks[w].team == out.team && p.webhooks[w].active
        && out.event in p.webhooks[w].events
  }

  function NewDelivery(out: OutboxRow, now: int): Delivery {
    Delivery(out.hasPayload, out.class_, Waiting, 0, now, None, now)
  }

  /** ON CONFLICT (webhook_id, event_id) DO NOTHING, for every subscribed webhook. */
  function AddDeliveries(ds: map<Key, Delivery>, e: nat, ws: set<nat>, d: Delivery): map<Key, Delivery> {
    map k | k in ds.Keys + (set w | w in ws :: (w, e)) :: if k in ds then ds[k] else d
  }

  function Dispatch(p: P, e: nat): P
    requires Dispatchable(p, e)
  {
    var out := p.outbox[e];
    p.(deliveries := AddDeliveries(p.deliveries, e, Subscribed(p, out), NewDelivery(out, p.now)),
       outbox := p.outbox[e := out.(status := Dispatched, lease := None)],
       dispatches := p.dispatches + [e],
       recipients := p.recipients[e := Subscribed(p, out)])
  }

  // ---------------------------------------------------------------- deliveries

  predicate DeliveryClaimable(p: P, k: Key) {
    && k in p.deliveries && k.0 in p.webhooks && p.webhooks[k.0].active
    && p.deliveries[k].status == Waiting && p.deliveries[k].hasPayload && p.deliveries[k].nextAt <= p.now
  }

  function ClaimDelivery(p: P, k: Key): P {
    if DeliveryClaimable(p, k)
    then var d := p.deliveries[k];
         p.(deliveries := p.deliveries[k := d.(status := InFlight, attempts := d.attempts + 1,
                                               lease := Some(p.now + LeaseSeconds))])
    else p
  }

  function MarkDelivered(p: P, k: Key): P {
    if k in p.deliveries && p.deliveries[k].status == InFlight
    then p.(deliveries := p.deliveries[k := p.deliveries[k].(status := DeliveryStatus.Delivered, lease := None)])
    else p
  }

  function MarkFailed(p: P, k: Key, retryAt: int): P {
    if k in p.deliveries && p.deliveries[k].status == InFlight
    then var d := p.deliveries[k];
         p.(deliveries := p.deliveries[k := d.(status := if d.attempts >= MaxDeliveryAttempts then GaveUp else Waiting,
                                               nextAt := retryAt, lease := None)])
    else p
  }

  function ReplayFailed(p: P, team: nat, k: Key): P {
    if k in p.deliveries && k.0 in p.webhooks && p.webhooks[k.0].team == team && p.webhooks[k.0].active
       && p.deliveries[k].status == GaveUp && p.deliveries[k].hasPayload
    then p.(deliveries := p.deliveries[k := p.deliveries[k].(status := Waiting, attempts := 0, nextAt := p.now,
                                                             lease := None)])
    else p
  }

  // ------------------------------------------------------- recovery and purging

  function RecoverInboxRow(r: InboxRow, now: int): InboxRow {
    if r.status == Processing && Before(r.lease, now) then r.(status := Pending, lease := None) else r
  }

  function RecoverDeliveryRow(d: Delivery, now: int): Delivery {
    if d.status == InFlight && Before(d.lease, now) then d.(status := Waiting, lease := None) else d
  }

  function RecoverOutboxRow(o: OutboxRow, now: int): OutboxRow {
    if o.status == OutProcessing && Before(o.lease, now) then o.(status := OutPending, lease := None) else o
  }

  function RecoverStale(p: P): P {
    p.(inbox := map e | e in p.inbox :: RecoverInboxRow(p.inbox[e], p.now),
       outbox := map e | e in p.outbox :: RecoverOutboxRow(p.outbox[e], p.now),
       deliveries := map k | k in p.deliveries :: RecoverDeliveryRow(p.deliveries[k], p.now))
  }

  function PurgeDeliveryRow(d: Delivery, c: Class, before: int): Delivery {
    if d.created < before && d.class_ == c && d.hasPayload
    then d.(hasPayload := false, status := if d.status.Waiting? || d.status.InFlight? then GaveUp
        else d.status, lease := None)
    else d
  }

  function PurgeOutboxRow(o: OutboxRow, c: Class, before: int): OutboxRow {
    if o.created < before && o.class_ == c && o.hasPayload
    then o.(hasPayload := false, lease := None,
            status := if o.status.OutPending? || o.status.OutProcessing? then OutFailed else o.status)
    else o
  }

  function PurgeInboxRow(r: InboxRow, before: int): InboxRow {
    if r.created < before && r.hasPayload
    then r.(hasPayload := false, status := if r.status.Pending? || r.status.Processing? then Ignored
        else r.status, lease := None)
    else r
  }

  function Purge(p: P, c: Class, before: int): P {
    p.(deliveries := map k | k in p.deliveries :: PurgeDeliveryRow(p.deliveries[k], c, before),
       outbox := map e | e in p.outbox :: PurgeOutboxRow(p.outbox[e], c, before),
       inbox := if c.Outbound? then map e | e in p.inbox :: PurgeInboxRow(p.inbox[e], before) else p.inbox)
  }

  // ---------------------------------------------------------------------- runs

  datatype Step =
    | Stores(e: nat, row: InboxRow)
    | ClaimsEvent(e: nat)
    | RetriesEvent(e: nat, at: int, terminal: bool)
    | Applies(e: nat, email: nat, out: OutboxRow)
    | Wakes(email: nat, attempt: nat, pid: string)
    | Inserts(e: nat, out: OutboxRow)          // the outbox row of any other durable event
    | Dispatches(e: nat)
    | ClaimsDelivery(k: Key)
    | MarksDelivered(k: Key)
    | MarksFailed(k: Key, retryAt: int)
    | ReplaysFailed(team: nat, k: Key)
    | Recovers
    | Purges(c: Class, before: int)
    | Configures(w: nat, hook: Webhook)
    | Ticks(t: int)

  /** Any worker may apply an event it once claimed, however stale its claim is by now. */
  predicate Enabled(p: P, s: Step) {
    match s
    case Applies(e, _, _) => e in p.inbox
    case Dispatches(e) => Dispatchable(p, e)
    case Inserts(e, _) => e !in p.inbox
    case Stores(e, _) => e in p.inbox || e !in p.outbox
    case Ticks(t) => p.now <= t
    case _ => true
  }

  function Apply(p: P, s: Step): P
    requires Enabled(p, s)
  {
    match s
    case Stores(e, row) => StoreEvent(p, e, row)
    case ClaimsEvent(e) => ClaimEvent(p, e)
    case RetriesEvent(e, at, terminal) => RetryEvent(p, e, at, terminal)
    case Applies(e, email, out) => ApplyEvent(p, e, email, out)
    case Wakes(email, attempt, pid) => Wake(p, email, attempt, pid)
    case Inserts(e, out) => if e in p.outbox then p else p.(outbox := p.outbox[e := Fresh(out, p.now)])
    case Dispatches(e) => Dispatch(p, e)
    case ClaimsDelivery(k) => ClaimDelivery(p, k)
    case MarksDelivered(k) => MarkDelivered(p, k)
    case MarksFailed(k, retryAt) => MarkFailed(p, k, retryAt)
    case ReplaysFailed(team, k) => ReplayFailed(p, team, k)
    case Recovers => RecoverStale(p)
    case Purges(c, before) => Purge(p, c, before)
    case Configures(w, hook) => p.(webhooks := p.webhooks[w := hook])
    case Ticks(t) => p.(now := t)
  }

  const Empty := P(map[], [], map[], map[], map[], 0, [], map[])

  ghost predicate IsTrace(ps: seq<P>, ss: seq<Step>) {
    && |ps| == |ss| + 1 && ps[0] == Empty
    && forall i | 0 <= i < |ss| :: Enabled(ps[i], ss[i]) && ps[i + 1] == Apply(ps[i], ss[i])
  }

  // ----------------------------------------------------------------- invariant

  predicate InboxClosed(r: InboxRow) {
    r.status.Processed? || r.status.Ignored?
  }

  predicate OutboxClosed(o: OutboxRow) {
    o.status.Dispatched? || o.status.OutFailed?
  }

  predicate DeliveryClosed(d: Delivery) {
    d.status.Delivered? || d.status.GaveUp?
  }

  /** Work without its payload can never be picked up again. */
  ghost predicate PurgedInv(p: P) {
    && (forall e | e in p.inbox && !p.inbox[e].hasPayload :: InboxClosed(p.inbox[e]))
    && (forall e | e in p.outbox && !p.outbox[e].hasPayload :: OutboxClosed(p.outbox[e]))
    && (forall k | k in p.deliveries && !p.deliveries[k].hasPayload :: DeliveryClosed(p.deliveries[k]))
  }

  ghost predicate OnceInv(p: P) {
    && (forall i, j | 0 <= i < j < |p.recorded| :: p.recorded[i] != p.recorded[j])
    && (forall i, j | 0 <= i < j < |p.dispatches| :: p.dispatches[i] != p.dispatches[j])
    && (forall e | e in p.dispatches :: e in p.outbox && p.outbox[e].status == Dispatched)
    && (forall e | e in p.outbox && p.outbox[e].status == Dispatched :: e in p.dispatches)
    && p.recipients.Keys == (set e | e in p.dispatches)
    && (forall k | k in p.deliveries :: k.1 in p.recipients && k.0 in p.recipients[k.1])
    && (forall e, w | e in p.recipients && w in p.recipients[e] :: (w, e) in p.deliveries)
    && (forall e | e in p.recorded :: e in p.outbox)
    && (forall e | e in p.inbox && p.inbox[e].status == Processed :: e in p.recorded)
    && (forall e | e in p.inbox && e in p.outbox :: e in p.recorded)
  }

  ghost predicate Inv(p: P) {
    PurgedInv(p) && OnceInv(p)
  }

  lemma DispatchKeepsOnce(p: P, e: nat)
    requires Inv(p) && Dispatchable(p, e)
    ensures OnceInv(Dispatch(p, e))
  {
    var p' := Dispatch(p, e);
    assert e !in p.dispatches;
    assert forall x :: x in p'.dispatches <==> x in p.dispatches || x == e;
    var ws := Subscribed(p, p.outbox[e]);
    assert forall k :: k in p'.deliveries <==> k in p.deliveries || (k.0 in ws && k.1 == e);
  }

  lemma PurgeKeepsPurged(p: P, c: Class, before: int)
    requires PurgedInv(p)
    ensures PurgedInv(Purge(p, c, before))
  {
    var p' := Purge(p, c, before);
    assert forall e | e in p'.outbox :: p'.outbox[e] == PurgeOutboxRow(p.outbox[e], c, before);
    assert forall k | k in p'.deliveries :: p'.deliveries[k] == PurgeDeliveryRow(p.deliveries[k], c, before);
    assert c.Outbound? ==> forall e | e in p'.inbox :: p'.inbox[e] == PurgeInboxRow(p.inbox[e], before);
  }

  lemma RecoverKeepsPurged(p: P)
    requires PurgedInv(p)
    ensures PurgedInv(RecoverStale(p))
  {}

  lemma StepKeepsPurged(p: P, s: Step)
    requires PurgedInv(p) && Enabled(p, s)
    ensures PurgedInv(Apply(p, s))
  {
    match s
    case Stores(_, _) =>
    case ClaimsEvent(_) =>
    case RetriesEvent(_, _, _) =>
    case Applies(_, _, _) =>
    case Wakes(_, _, _) =>
    case Inserts(_, _) =>
    case Dispatches(_) =>
    case ClaimsDelivery(_) =>
    case MarksDelivered(_) =>
    case MarksFailed(_, _) =>
    case ReplaysFailed(_, _) =>
    case Recovers => RecoverKeepsPurged(p);
    case Purges(c, before) => PurgeKeepsPurged(p, c, before);
    case Configures(_, _) =>
    case Ticks(_) =>
  }

  /** Inbox statuses only reach `Processed` through an application; the rest is unchanged. */
  lemma InboxOnlyKeepsOnce(p: P, p': P)
    requires OnceInv(p) && p' == p.(inbox := p'.inbox, now := p'.now, webhooks := p'.webhooks)
    requires forall e | e in p'.inbox :: e in p.inbox || e !in p.outbox
    requires forall e | e in p'.inbox && p'.inbox[e].status == Processed ::
          e in p.inbox && p.inbox[e].status == Processed
    ensures OnceInv(p')
  {}

  lemma ApplyingKeepsOnce(p: P, e: nat, email: nat, out: OutboxRow)
    requires OnceInv(p) && e in p.inbox
    ensures OnceInv(ApplyEvent(p, e, email, out))
  {
    assert forall x :: x in ApplyEvent(p, e, email, out).recorded <==> x in p.recorded || x == e;
  }

  lemma InsertingKeepsOnce(p: P, e: nat, out: OutboxRow)
    requires OnceInv(p) && e !in p.inbox && e !in p.outbox
    ensures OnceInv(p.(outbox := p.outbox[e := Fresh(out, p.now)]))
  {}

  /** Nothing that records, dispatches or creates a delivery happened. */
  lemma SweepsKeepOnce(p: P, p': P)
    requires OnceInv(p)
    requires p' == p.(inbox := p'.inbox, outbox := p'.outbox, deliveries := p'.deliveries)
    requires p'.inbox.Keys == p.inbox.Keys && p'.outbox.Keys == p.outbox.Keys && p'.deliveries.Keys == p.deliveries.Keys
    requires forall e | e in p.inbox :: p'.inbox[e].status == Processed ==> p.inbox[e].status == Processed
    requires forall e | e in p.outbox :: p'.outbox[e].status == Dispatched <==> p.outbox[e].status == Dispatched
    ensures OnceInv(p')
  {
    assert forall k :: k in p'.deliveries <==> k in p.deliveries;
  }

  lemma DeliveriesOnlyKeepOnce(p: P, p': P)
    requires OnceInv(p) && p' == p.(deliveries := p'.deliveries) && p'.deliveries.Keys == p.deliveries.Keys
    ensures OnceInv(p')
  {
    SweepsKeepOnce(p, p');
  }

  lemma PurgeKeepsOnce(p: P, c: Class, before: int)
    requires OnceInv(p)
    ensures OnceInv(Purge(p, c, before))
  {
    var p' := Purge(p, c, before);
    assert p'.outbox.Keys == p.outbox.Keys && p'.inbox.Keys == p.inbox.Keys && p'.deliveries.Keys == p.deliveries.Keys;
    SweepsKeepOnce(p, p');
  }

  lemma RecoverKeepsOnce(p: P)
    requires OnceInv(p)
    ensures OnceInv(RecoverStale(p))
  {
    var p' := RecoverStale(p);
    assert p'.outbox.Keys == p.outbox.Keys && p'.inbox.Keys == p.inbox.Keys && p'.deliveries.Keys == p.deliveries.Keys;
    SweepsKeepOnce(p, p');
  }

  lemma StoreKeepsOnce(p: P, e: nat, row: InboxRow)
    requires OnceInv(p) && (e in p.inbox || e !in p.outbox)
    ensures OnceInv(StoreEvent(p, e, row))
  {
    InboxOnlyKeepsOnce(p, StoreEvent(p, e, row));
  }

  lemma InboxRowKeepsOnce(p: P, e: nat, r: InboxRow)
    requires OnceInv(p) && e in p.inbox && r.status != Processed
    ensures OnceInv(p.(inbox := p.inbox[e := r]))
  {
    InboxOnlyKeepsOnce(p, p.(inbox := p.inbox[e := r]));
  }

  lemma InboxStepKeepsOnce(p: P, s: Step)
    requires OnceInv(p) && Enabled(p, s)
    requires s.Stores? || s.ClaimsEvent? || s.RetriesEvent? || s.Configures? || s.Ticks?
    ensures OnceInv(Apply(p, s))
  {
    match s
    case Stores(e, row) => StoreKeepsOnce(p, e, row);
    case ClaimsEvent(e) =>
      if ClaimEvent(p, e) != p { InboxRowKeepsOnce(p, e, ClaimEvent(p, e).inbox[e]); }
    case RetriesEvent(e, at, terminal) =>
      if RetryEvent(p, e, at, terminal) != p { InboxRowKeepsOnce(p, e, RetryEvent(p, e, at, terminal).inbox[e]); }
    case Configures(w, hook) => InboxOnlyKeepsOnce(p, p.(webhooks := p.webhooks[w := hook]));
    case Ticks(t) => InboxOnlyKeepsOnce(p, p.(now := t));
  }

  lemma WakeKeepsOnce(p: P, email: nat, attempt: nat, pid: string)
    requires OnceInv(p)
    ensures OnceInv(Wake(p, email, attempt, pid))
  {
    var p' := Wake(p, email, attempt, pid);
    assert forall e | e in p'.inbox :: p'.inbox[e] == WakeRow(p.inbox[e], email, attempt, pid, p.now);
    InboxOnlyKeepsOnce(p, p');
  }

  lemma DeliveryStepKeepsOnce(p: P, s: Step)
    requires OnceInv(p) && Enabled(p, s)
    requires s.ClaimsDelivery? || s.MarksDelivered? || s.MarksFailed? || s.ReplaysFailed?
    ensures OnceInv(Apply(p, s))
  {
    match s
    case ClaimsDelivery(k) => DeliveriesOnlyKeepOnce(p, ClaimDelivery(p, k));
    case MarksDelivered(k) => DeliveriesOnlyKeepOnce(p, MarkDelivered(p, k));
    case MarksFailed(k, at) => DeliveriesOnlyKeepOnce(p, MarkFailed(p, k, at));
    case ReplaysFailed(team, k) => DeliveriesOnlyKeepOnce(p, ReplayFailed(p, team, k));
  }

  lemma StepKeepsOnce(p: P, s: Step)
    requires OnceInv(p) && Enabled(p, s) && !s.Dispatches?
    ensures OnceInv(Apply(p, s))
  {
    match s
    case Applies(e, email, out) => ApplyingKeepsOnce(p, e, email, out);
    case Inserts(e, out) => if e !in p.outbox { InsertingKeepsOnce(p, e, out); }
    case Recovers => RecoverKeepsOnce(p);
    case Purges(c, before) => PurgeKeepsOnce(p, c, before);
    case ClaimsDelivery(_) | MarksDelivered(_) | MarksFailed(_, _) | ReplaysFailed(_, _) => DeliveryStepKeepsOnce(p, s);
    case Stores(_, _) | ClaimsEvent(_) | RetriesEvent(_, _, _) | Configures(_, _) | Ticks(_) =>
      InboxStepKeepsOnce(p, s);
    case Wakes(email, attempt, pid) => WakeKeepsOnce(p, email, attempt, pid);
  }

  lemma StepKeepsInv(p: P, s: Step)
    requires Inv(p) && Enabled(p, s)
    ensures Inv(Apply(p, s))
  {
    if s.Dispatches? {
      DispatchKeepsOnce(p, s.e);
    } else {
      StepKeepsOnce(p, s);
    }
    StepKeepsPurged(p, s);
  }

  lemma {:induction false} InvHolds(ps: seq<P>, ss: seq<Step>, k: nat)
    requires IsTrace(ps, ss) && k < |ps|
    ensures Inv(ps[k])
  {
    if k > 0 {
      InvHolds(ps, ss, k - 1);
      StepKeepsInv(ps[k - 1], ss[k - 1]);
    }
  }

  // ------------------------------------------------------------------ theorems

  /** Whatever is redelivered, recovered or purged: an event is recorded at most once, and an
      event marked processed is recorded and has its outbox row. */
  lemma CallbackEffectsAreRecordedOnce(ps: seq<P>, ss: seq<Step>, k: nat)
    requires IsTrace(ps, ss) && k < |ps|
    ensures forall i, j | 0 <= i < j < |ps[k].recorded| :: ps[k].recorded[i] != ps[k].recorded[j]
    ensures forall e | e in ps[k].inbox && ps[k].inbox[e].status == Processed ::
              e in ps[k].recorded && e in ps[k].outbox
  {
    InvHolds(ps, ss, k);
  }

  /** An event is dispatched at most once, and only while it is due. From then on its deliveries
      belong exactly to the webhooks of its own team that were active and had the event among
      theirs at that moment; they start with its payload and class, due at once. */
  lemma DispatchedOnceToExactlyTheSubscribers(ps: seq<P>, ss: seq<Step>, i: nat, k: nat, e: nat)
    requires IsTrace(ps, ss) && i < k < |ps|
    requires ss[i] == Dispatches(e)
    ensures forall j | i < j < |ss| :: ss[j] != Dispatches(e)
    ensures e in ps[i].outbox && ps[i].outbox[e].status == OutPending && ps[i].outbox[e].nextAt <= ps[i].now
    ensures forall w :: (w, e) in ps[k].deliveries <==>
                        && w in ps[i].webhooks && ps[i].webhooks[w].team == ps[i].outbox[e].team
                        && ps[i].webhooks[w].active && ps[i].outbox[e].event in ps[i].webhooks[w].events
    ensures ps[i + 1].outbox[e].status == Dispatched
    ensures forall w | (w, e) in ps[i + 1].deliveries ::
              (w, e) !in ps[i].deliveries
              && ps[i + 1].deliveries[(w, e)]
                 == Delivery(true, ps[i].outbox[e].class_, Waiting, 0, ps[i].now, None, ps[i].now)
  {
    RecipientsAreFixed(ps, ss, i + 1, k, e);
    InvHolds(ps, ss, i);
    InvHolds(ps, ss, i + 1);
    InvHolds(ps, ss, k);
    forall j | i < j < |ss| ensures ss[j] != Dispatches(e) {
      RecipientsAreFixed(ps, ss, i + 1, j, e);
      InvHolds(ps, ss, j);
    }
    assert forall w :: w in ps[k].recipients[e] <==> w in Subscribed(ps[i], ps[i].outbox[e]);
    assert e !in ps[i].dispatches;
  }

  /** Nothing but the dispatch of an event makes a delivery of it. */
  lemma {:induction false} DeliveriesComeFromDispatches(ps: seq<P>, ss: seq<Step>, k: nat, d: Key) returns (i: nat)
    requires IsTrace(ps, ss) && k < |ps| && d in ps[k].deliveries
    ensures i < k && ss[i] == Dispatches(d.1)
  {
    if d in ps[k - 1].deliveries {
      i := DeliveriesComeFromDispatches(ps, ss, k - 1, d);
    } else {
      i := k - 1;
      if !ss[i].Dispatches? { OnlyDispatchesDeliver(ps[i], ss[i], d); }
    }
  }

  lemma OnlyDispatchesDeliver(p: P, s: Step, d: Key)
    requires Enabled(p, s) && !s.Dispatches?
    ensures d in Apply(p, s).deliveries ==> d in p.deliveries
  {}

  lemma StepKeepsRecipients(p: P, s: Step, e: nat)
    requires OnceInv(p) && Enabled(p, s) && e in p.recipients
    ensures e in Apply(p, s).recipients && Apply(p, s).recipients[e] == p.recipients[e]
  {
    if s.Dispatches? {
      assert s.e !in p.recipients;
    } else {
      RecipientsUntouched(p, s);
    }
  }

  lemma RecipientsUntouched(p: P, s: Step)
    requires Enabled(p, s) && !s.Dispatches?
    ensures Apply(p, s).recipients == p.recipients
  {}

  lemma {:induction false} RecipientsAreFixed(ps: seq<P>, ss: seq<Step>, i: nat, k: nat, e: nat)
    requires IsTrace(ps, ss) && i <= k < |ps| && e in ps[i].recipients
    ensures e in ps[k].recipients && ps[k].recipients[e] == ps[i].recipients[e]
    ensures e in ps[k].dispatches
    decreases k
  {
    if i < k {
      RecipientsAreFixed(ps, ss, i, k - 1, e);
      InvHolds(ps, ss, k - 1);
      StepKeepsRecipients(ps[k - 1], ss[k - 1], e);
    }
    InvHolds(ps, ss, k);
    assert e in ps[k].recipients.Keys;
  }

  lemma PurgedWorkIsClosed(ps: seq<P>, ss: seq<Step>, k: nat, e: nat, d: Key)
    requires IsTrace(ps, ss) && k < |ps|
    ensures e in ps[k].inbox && !ps[k].inbox[e].hasPayload ==> InboxClosed(ps[k].inbox[e])
    ensures e in ps[k].outbox && !ps[k].outbox[e].hasPayload ==> OutboxClosed(ps[k].outbox[e])
    ensures d in ps[k].deliveries && !ps[k].deliveries[d].hasPayload ==> DeliveryClosed(ps[k].deliveries[d])
  {
    InvHolds(ps, ss, k);
  }

  /** Finished: delivered, dispatched, processed or ignored. */
  predicate InboxDone(p: P, e: nat) {
    e in p.inbox && InboxClosed(p.inbox[e])
  }

  predicate OutboxDone(p: P, e: nat) {
    e in p.outbox && OutboxClosed(p.outbox[e])
  }

  predicate DeliveryDone(p: P, k: Key) {
    k in p.deliveries && (p.deliveries[k].status == DeliveryStatus.Delivered || (p.deliveries[k].status == GaveUp
        && !p.deliveries[k].hasPayload))
  }

  ghost predicate KeepsInbox(p: P, p': P, e: nat) {
    InboxDone(p, e) ==> InboxDone(p', e) && p'.inbox[e].status == p.inbox[e].status
  }

  ghost predicate KeepsOutbox(p: P, p': P, e: nat) {
    OutboxDone(p, e) ==> OutboxDone(p', e) && p'.outbox[e].status == p.outbox[e].status
  }

  ghost predicate KeepsDelivery(p: P, p': P, k: Key) {
    DeliveryDone(p, k) ==> DeliveryDone(p', k) && p'.deliveries[k].status == p.deliveries[k].status
  }

  /** Rows finished in `p` are finished in `p'` with the same status. */
  ghost predicate KeepsDone(p: P, p': P, e: nat, k: Key) {
    KeepsInbox(p, p', e) && KeepsOutbox(p, p', e) && KeepsDelivery(p, p', k)
  }

  lemma StepKeepsInboxDone(p: P, s: Step, e: nat)
    requires Enabled(p, s)
    ensures KeepsInbox(p, Apply(p, s), e)
  {}

  lemma StepKeepsOutboxDone(p: P, s: Step, e: nat)
    requires Enabled(p, s)
    ensures KeepsOutbox(p, Apply(p, s), e)
  {}

  lemma StepKeepsDeliveryDone(p: P, s: Step, k: Key)
    requires Enabled(p, s)
    ensures KeepsDelivery(p, Apply(p, s), k)
  {}

  lemma KeepsDoneChains(p: P, q: P, r: P, e: nat, k: Key)
    requires KeepsDone(p, q, e, k) && KeepsDone(q, r, e, k)
    ensures KeepsDone(p, r, e, k)
  {}

  lemma StepKeepsDone(p: P, s: Step, e: nat, k: Key)
    requires Enabled(p, s)
    ensures KeepsDone(p, Apply(p, s), e, k)
  {
    StepKeepsInboxDone(p, s, e);
    StepKeepsOutboxDone(p, s, e);
    StepKeepsDeliveryDone(p, s, k);
  }

  lemma {:induction false} KeepsDoneAlong(ps: seq<P>, i: nat, j: nat, e: nat, k: Key)
    requires i <= j < |ps| && forall m | i <= m < j :: KeepsDone(ps[m], ps[m + 1], e, k)
    ensures KeepsDone(ps[i], ps[j], e, k)
    decreases j
  {
    if i < j {
      KeepsDoneAlong(ps, i, j - 1, e, k);
      assert KeepsDone(ps[j - 1], ps[j - 1 + 1], e, k);
      KeepsDoneChains(ps[i], ps[j - 1], ps[j], e, k);
    }
  }

  /** A finished row keeps its status for the rest of the run. */
  lemma FinishedWorkStaysFinished(ps: seq<P>, ss: seq<Step>, i: nat, j: nat, e: nat, k: Key)
    requires IsTrace(ps, ss) && i <= j < |ps|
    ensures KeepsDone(ps[i], ps[j], e, k)
  {
    forall m | i <= m < j ensures KeepsDone(ps[m], ps[m + 1], e, k) {
      StepKeepsDone(ps[m], ss[m], e, k);
    }
    KeepsDoneAlong(ps, i, j, e, k);
  }
}
