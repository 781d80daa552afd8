/** The pipeline tables as the repositories change them in place, and the operator's review
    of an ambiguous email, which reads the inbox for proof. */
module PipelineStore {
  import opened Common
  import opened EmailDomain
  import EmailRows
  import Pipeline

  function Elements(ids: seq<nat>): set<nat> {
    set w | w in ids
  }

  /** Had a payload, has none now, and is closed: as before, or because it was open. */
  predicate PurgedDelivery(was: Pipeline.Delivery, now: Pipeline.Delivery, c: Pipeline.Class, before: int) {
    && was.hasPayload && was.created < before && was.class_ == c && !now.hasPayload && Pipeline.DeliveryClosed(now)
    && (Pipeline.DeliveryClosed(was) ==> now.status == was.status)
    && (!Pipeline.DeliveryClosed(was) ==> now.status == Pipeline.GaveUp)
    && now == was.(hasPayload := false, status := now.status, lease := None)
  }

  predicate PurgedOutbox(was: Pipeline.OutboxRow, now: Pipeline.OutboxRow, c: Pipeline.Class, before: int) {
    && was.hasPayload && was.created < before && was.class_ == c && !now.hasPayload && Pipeline.OutboxClosed(now)
    && (Pipeline.OutboxClosed(was) ==> now.status == was.status)
    && (!Pipeline.OutboxClosed(was) ==> now.status == Pipeline.OutFailed)
    && now == was.(hasPayload := false, status := now.status, lease := None)
  }

  predicate PurgedInbox(was: Pipeline.InboxRow, now: Pipeline.InboxRow, before: int) {
    && was.hasPayload && was.created < before && !now.hasPayload && Pipeline.InboxClosed(now)
    && (Pipeline.InboxClosed(was) ==> now.status == was.status)
    && (!Pipeline.InboxClosed(was) ==> now.status == Pipeline.Ignored)
    && now == was.(hasPayload := false, status := now.status, lease := None)
  }

  predicate DueFirst(a: Pipeline.Delivery, b: Pipeline.Delivery) {
    a.nextAt < b.nextAt || (a.nextAt == b.nextAt && a.created <= b.created)
  }

  predicate DispatchFirst(a: Pipeline.OutboxRow, b: Pipeline.OutboxRow) {
    a.nextAt < b.nextAt || (a.nextAt == b.nextAt && a.created <= b.created)
  }

  lemma FirstDelivery(keys: set<Pipeline.Key>, ds: map<Pipeline.Key, Pipeline.Delivery>)
    requires keys != {} && keys <= ds.Keys
    ensures exists k :: k in keys && forall y | y in keys :: DueFirst(ds[k], ds[y])
  {
    var one, two := map k | k in ds :: ds[k].nextAt, map k | k in ds :: ds[k].created;
    FirstExists(keys, one, two);
    var k :| k in keys && forall y | y in keys :: one[k] < one[y] || (one[k] == one[y] && two[k] <= two[y]);
    assert forall y | y in keys :: DueFirst(ds[k], ds[y]);
  }

  lemma FirstOutboxRow(keys: set<nat>, os: map<nat, Pipeline.OutboxRow>)
    requires keys != {} && keys <= os.Keys
    ensures exists k :: k in keys && forall y | y in keys :: DispatchFirst(os[k], os[y])
  {
    var one, two := map k | k in os :: os[k].nextAt, map k | k in os :: os[k].created;
    FirstExists(keys, one, two);
    var k :| k in keys && forall y | y in keys :: one[k] < one[y] || (one[k] == one[y] && two[k] <= two[y]);
    assert forall y | y in keys :: DispatchFirst(os[k], os[y]);
  }

  /** The webhook belongs to the team of the event, is active, and has the event among its own. */
  predicate Subscribes(hooks: map<nat, Pipeline.Webhook>, w: nat, out: Pipeline.OutboxRow) {
    w in hooks && hooks[w].team == out.team && hooks[w].active && out.event in hooks[w].events
  }

  predicate IsOpen(outs: map<nat, Pipeline.OutboxRow>, now: int, e: nat) {
    e in outs && outs[e].status == Pipeline.OutPending && outs[e].nextAt <= now && outs[e].hasPayload
  }

  /** The due event `e` is closed, and each webhook subscribed to it has its delivery, due now
      unless it was there before. */
  ghost predicate Dispatched(ds: map<Pipeline.Key, Pipeline.Delivery>, outs: map<nat, Pipeline.OutboxRow>,
                             hooks: map<nat, Pipeline.Webhook>, now: int, e: nat,
                             ds': map<Pipeline.Key, Pipeline.Delivery>, outs': map<nat, Pipeline.OutboxRow>) {
    && IsOpen(outs, now, e)
    && outs' == outs[e := outs[e].(status := Pipeline.Dispatched, lease := None)]
    && (forall k :: k in ds' <==> k in ds || (k.1 == e && Subscribes(hooks, k.0, outs[e])))
    && (forall k | k in ds :: ds'[k] == ds[k])
    && (forall k | k in ds' && k !in ds ::
          ds'[k] == Pipeline.Delivery(true, outs[e].class_, Pipeline.Waiting, 0, now, None, now))
  }

  /** A waiting delivery of an active webhook, due and with its payload. */
  predicate IsDue(ds: map<Pipeline.Key, Pipeline.Delivery>, hooks: map<nat, Pipeline.Webhook>, now: int,
                  k: Pipeline.Key) {
    && k in ds && k.0 in hooks && hooks[k.0].active && ds[k].status == Pipeline.Waiting && ds[k].hasPayload
    && ds[k].nextAt <= now
  }

  /** It is under way for another sixty seconds, with one more attempt on its account. */
  predicate Claims(ds: map<Pipeline.Key, Pipeline.Delivery>, hooks: map<nat, Pipeline.Webhook>, now: int,
                   k: Pipeline.Key, ds': map<Pipeline.Key, Pipeline.Delivery>) {
    && IsDue(ds, hooks, now, k)
    && ds' == ds[k := ds[k].(status := Pipeline.InFlight, attempts := ds[k].attempts + 1, lease := Some(now + 60))]
  }

  class Store {
    var inbox: map<nat, Pipeline.InboxRow>
    var recorded: seq<nat>
    var outbox: map<nat, Pipeline.OutboxRow>
    var deliveries: map<Pipeline.Key, Pipeline.Delivery>
    var webhooks: map<nat, Pipeline.Webhook>
    var now: int
    ghost var dispatches: seq<nat>
    ghost var recipients: map<nat, set<nat>>

    ghost function View(): Pipeline.P reads this {
      Pipeline.P(inbox, recorded, outbox, deliveries, webhooks, now, dispatches, recipients)
    }

    constructor ()
      ensures View() == Pipeline.Empty
    {
      inbox, recorded, outbox, deliveries, webhooks, now := map[], [], map[], map[], map[], 0;
      dispatches, recipients := [], map[];
    }

    method StoreProviderEvent(e: nat, row: Pipeline.InboxRow)
      modifies this
      ensures View() == Pipeline.StoreEvent(old(View()), e, row)
      ensures e in old(inbox) ==> View() == old(View())
      ensures e !in old(inbox) ==>
                inbox == old(inbox)[e := row.(hasPayload := true, status := Pipeline.Pending, attempts := 0,
                                              nextAt := now, lease := None, created := now)]
    {
      if e !in inbox {
        inbox := inbox[e := Pipeline.InboxRow(row.pid, row.kind, true, row.emailId, row.attemptId,
                                              Pipeline.Pending, 0, now, None, now)];
      }
    }

    method ClaimProviderEvent(e: nat) returns (claimed: bool)
      modifies this
      ensures View() == Pipeline.ClaimEvent(old(View()), e)
      ensures claimed <==> e in old(inbox) && old(inbox)[e].status == Pipeline.Pending
                           && old(inbox)[e].nextAt <= now && old(inbox)[e].hasPayload
      ensures inbox == if !claimed then old(inbox)
                       else old(inbox)[e := old(inbox)[e].(status := Pipeline.Processing, lease := Some(now + 60),
                                                           attempts := old(inbox)[e].attempts + 1)]
    {
      claimed := e in inbox && inbox[e].status == Pipeline.Pending && inbox[e].nextAt <= now && inbox[e].hasPayload;
      if claimed {
        var r := inbox[e];
        inbox := inbox[e := r.(status := Pipeline.Processing, attempts := r.attempts + 1, lease := Some(now + 60))];
      }
    }

    method RetryProviderEvent(e: nat, at: int, terminal: bool)
      modifies this
      ensures View() == Pipeline.RetryEvent(old(View()), e, at, terminal)
      ensures inbox == if !(e in old(inbox) && old(inbox)[e].status == Pipeline.Processing) then old(inbox)
                       else if terminal
                       then old(inbox)[e := old(inbox)[e].(status := Pipeline.Ignored, nextAt := at, lease := None)]
                       else old(inbox)[e := old(inbox)[e].(status := Pipeline.Pending, nextAt := at, lease := None)]
    {
      if e in inbox && inbox[e].status == Pipeline.Processing {
        var next := Pipeline.Pending;
        if terminal { next := Pipeline.Ignored; }
        inbox := inbox[e := inbox[e].(status := next, nextAt := at, lease := None)];
      }
    }

    /** The part of the transaction that follows the UPDATE of the email row. */
    method RecordProviderEvent(e: nat, email: nat, out: Pipeline.OutboxRow)
      modifies this
      ensures View() == Pipeline.ApplyEvent(old(View()), e, email, out)
      ensures recorded == old(recorded) + if e in old(recorded) then [] else [e]
      ensures e in outbox && (e in old(outbox) ==> outbox == old(outbox))
      ensures e !in old(outbox) ==>
                outbox == old(outbox)[e := out.(hasPayload := true, status := Pipeline.OutPending, nextAt := now,
                                                lease := None, created := now)]
      ensures e in inbox ==> inbox[e].status != Pipeline.Processing
      ensures forall x | x in old(inbox) && !(x == e && old(inbox)[x].status == Pipeline.Processing) ::
                x in inbox && inbox[x] == old(inbox)[x]
      ensures e in old(inbox) && old(inbox)[e].status == Pipeline.Processing ==>
                inbox[e] == old(inbox)[e].(status := Pipeline.Processed, emailId := Some(email), lease := None)
    {
      if e !in recorded { recorded := recorded + [e]; }
      if e !in outbox { outbox := outbox[e := Pipeline.Fresh(out, now)]; }
      if e in inbox && inbox[e].status == Pipeline.Processing {
        inbox := inbox[e := inbox[e].(status := Pipeline.Processed, emailId := Some(email), lease := None)];
      }
    }

    /** ORDER BY next_attempt_at, created_at ... SKIP LOCKED: rows that another transaction has
        locked are passed over. */
    method ClaimDelivery(locked: set<Pipeline.Key>) returns (picked: Option<Pipeline.Key>)
      modifies this
      ensures picked.None? ==> View() == old(View())
      ensures picked.None? ==> forall k :: IsDue(deliveries, webhooks, now, k) ==> k in locked
      ensures picked.Some? ==>
                && picked.value !in locked
                && View() == Pipeline.ClaimDelivery(old(View()), picked.value)
                && Claims(old(deliveries), webhooks, now, picked.value, deliveries)
                && (forall k | k !in locked && IsDue(old(deliveries), webhooks, now, k) ::
                      DueFirst(old(deliveries)[picked.value], old(deliveries)[k]))
    {
      var due := set k | k in deliveries && k !in locked && k.0 in webhooks && webhooks[k.0].active
                         && deliveries[k].status == Pipeline.Waiting && deliveries[k].hasPayload
                             && deliveries[k].nextAt <= now;
      if due == {} {
        assert forall k | k !in locked && IsDue(deliveries, webhooks, now, k) :: k in due;
        return None;
      }
      FirstDelivery(due, deliveries);
      var k :| k in due && forall y | y in due :: DueFirst(deliveries[k], deliveries[y]);
      assert forall y | y !in locked && IsDue(deliveries, webhooks, now, y) :: y in due;
      picked := Some(k);
      var d := deliveries[k];
      deliveries := deliveries[k := d.(status := Pipeline.InFlight, attempts := d.attempts + 1,
          lease := Some(now + 60))];
    }

    method MarkDelivered(k: Pipeline.Key)
      modifies this
      ensures View() == Pipeline.MarkDelivered(old(View()), k)
      ensures deliveries == if !(k in old(deliveries) && old(deliveries)[k].status == Pipeline.InFlight)
                            then old(deliveries)
                            else old(deliveries)[k := old(deliveries)[k].(
                                                        status := Pipeline.DeliveryStatus.Delivered, lease := None)]
    {
      if k in deliveries && deliveries[k].status == Pipeline.InFlight {
        deliveries := deliveries[k := deliveries[k].(status := Pipeline.DeliveryStatus.Delivered, lease := None)];
      }
    }

    method ReplayFailed(team: nat, k: Pipeline.Key) returns (replayed: bool)
      modifies this
      ensures View() == Pipeline.ReplayFailed(old(View()), team, k)
      ensures replayed <==> && k in old(deliveries) && old(deliveries)[k].status == Pipeline.GaveUp
                            && old(deliveries)[k].hasPayload && k.0 in webhooks && webhooks[k.0].team == team
                            && webhooks[k.0].active
      ensures deliveries == if !replayed then old(deliveries)
                            else old(deliveries)[k := old(deliveries)[k].(status := Pipeline.Waiting, attempts := 0,
                                                                          nextAt := now, lease := None)]
      ensures !replayed ==> View() == old(View())
    {
      replayed := k in deliveries && k.0 in webhooks && webhooks[k.0].team == team && webhooks[k.0].active
                  && deliveries[k].status == Pipeline.GaveUp && deliveries[k].hasPayload;
      if replayed {
        deliveries := deliveries[k := deliveries[k].(status := Pipeline.Waiting, attempts := 0, nextAt := now,
            lease := None)];
      }
    }

    // Recovery, table by table: afterwards no claim is overdue, and nothing changed but overdue
    // claims, which went back to pending with payload and attempts as they were.

    method RecoverInbox()
      modifies this`inbox
      ensures inbox == Pipeline.RecoverStale(old(View())).inbox
      ensures forall e | e in inbox :: !(inbox[e].status == Pipeline.Processing && Before(inbox[e].lease, now))
      ensures inbox.Keys == old(inbox).Keys
      ensures forall e | e in inbox && inbox[e] != old(inbox)[e] ::
                old(inbox)[e].status == Pipeline.Processing && Before(old(inbox)[e].lease, now)
                && inbox[e] == old(inbox)[e].(status := Pipeline.Pending, lease := None)
    {
      inbox := map e | e in inbox ::
        if inbox[e].status == Pipeline.Processing && inbox[e].lease.Some? && inbox[e].lease.value < now
        then inbox[e].(status := Pipeline.Pending, lease := None) else inbox[e];
    }

    method RecoverOutbox()
      modifies this`outbox
      ensures outbox == Pipeline.RecoverStale(old(View())).outbox
      ensures forall e | e in outbox :: !(outbox[e].status == Pipeline.OutProcessing && Before(outbox[e].lease, now))
      ensures outbox.Keys == old(outbox).Keys
      ensures forall e | e in outbox && outbox[e] != old(outbox)[e] ::
                && old(outbox)[e].status == Pipeline.OutProcessing && Before(old(outbox)[e].lease, now)
                && outbox[e] == old(outbox)[e].(status := Pipeline.OutPending, lease := None)
    {
      outbox := map e | e in outbox ::
        if outbox[e].status == Pipeline.OutProcessing && outbox[e].lease.Some? && outbox[e].lease.value < now
        then outbox[e].(status := Pipeline.OutPending, lease := None) else outbox[e];
    }

    method RecoverDeliveries()
      modifies this`deliveries
      ensures deliveries == Pipeline.RecoverStale(old(View())).deliveries
      ensures forall k | k in deliveries ::
            !(deliveries[k].status == Pipeline.InFlight && Before(deliveries[k].lease, now))
      ensures deliveries.Keys == old(deliveries).Keys
      ensures forall k | k in deliveries && deliveries[k] != old(deliveries)[k] ::
                old(deliveries)[k].status == Pipeline.InFlight && Before(old(deliveries)[k].lease, now)
                && deliveries[k] == old(deliveries)[k].(status := Pipeline.Waiting, lease := None)
    {
      deliveries := map k | k in deliveries ::
        if deliveries[k].status == Pipeline.InFlight && deliveries[k].lease.Some? && deliveries[k].lease.value < now
        then deliveries[k].(status := Pipeline.Waiting, lease := None) else deliveries[k];
    }

    method RecoverStale()
      modifies this
      ensures View() == Pipeline.RecoverStale(old(View()))
    {
      RecoverInbox();
      RecoverOutbox();
      RecoverDeliveries();
    }

    // Purging, table by table: afterwards no row of the class from before that time has its
    // payload (the inbox belongs to the outbound class). What changed had one; it was open and
    // is closed now, or keeps its status. `purged` counts these rows.

    method PurgeDeliveries(c: Pipeline.Class, before: int) returns (purged: nat)
      modifies this`deliveries
      ensures deliveries == Pipeline.Purge(old(View()), c, before).deliveries
      ensures forall k | k in deliveries && deliveries[k].created < before && deliveries[k].class_ == c ::
          !deliveries[k].hasPayload
      ensures deliveries.Keys == old(deliveries).Keys
      ensures forall k | k in deliveries && deliveries[k] != old(deliveries)[k] ::
          PurgedDelivery(old(deliveries)[k], deliveries[k], c, before)
      ensures purged == |set k | k in deliveries && deliveries[k] != old(deliveries)[k]|
    {
      var due := set k | k in deliveries && deliveries[k].created < before && deliveries[k].class_ == c
          && deliveries[k].hasPayload;
      deliveries := map k | k in deliveries ::
        if k !in due then deliveries[k]
        else deliveries[k].(hasPayload := false, lease := None,
            status := if Pipeline.DeliveryClosed(deliveries[k]) then deliveries[k].status else Pipeline.GaveUp);
      purged := |due|;
      assert due == set k | k in deliveries && deliveries[k] != old(deliveries)[k];
    }

    method PurgeOutbox(c: Pipeline.Class, before: int) returns (purged: nat)
      modifies this`outbox
      ensures outbox == Pipeline.Purge(old(View()), c, before).outbox
      ensures forall e | e in outbox && outbox[e].created < before && outbox[e].class_ == c :: !outbox[e].hasPayload
      ensures outbox.Keys == old(outbox).Keys
      ensures forall e | e in outbox && outbox[e] != old(outbox)[e] ::
          PurgedOutbox(old(outbox)[e], outbox[e], c, before)
      ensures purged == |set e | e in outbox && outbox[e] != old(outbox)[e]|
    {
      var due := set e | e in outbox && outbox[e].created < before && outbox[e].class_ == c && outbox[e].hasPayload;
      outbox := map e | e in outbox ::
        if e !in due then outbox[e]
        else outbox[e].(hasPayload := false, lease := None, status := if Pipeline.OutboxClosed(outbox[e])
            then outbox[e].status else Pipeline.OutFailed);
      purged := |due|;
      assert due == set e | e in outbox && outbox[e] != old(outbox)[e];
    }

    method PurgeInbox(c: Pipeline.Class, before: int) returns (purged: nat)
      modifies this`inbox
      ensures inbox == Pipeline.Purge(old(View()), c, before).inbox
      ensures forall e | e in inbox && c == Pipeline.Outbound && inbox[e].created < before :: !inbox[e].hasPayload
      ensures inbox.Keys == old(inbox).Keys
      ensures forall e | e in inbox && inbox[e] != old(inbox)[e] ::
            c == Pipeline.Outbound && PurgedInbox(old(inbox)[e], inbox[e], before)
      ensures purged == |set e | e in inbox && inbox[e] != old(inbox)[e]|
    {
      var due := set e | e in inbox && c == Pipeline.Outbound && inbox[e].created < before && inbox[e].hasPayload;
      inbox := map e | e in inbox ::
        if e !in due then inbox[e]
        else inbox[e].(hasPayload := false, lease := None, status := if Pipeline.InboxClosed(inbox[e])
            then inbox[e].status else Pipeline.Ignored);
      purged := |due|;
      assert due == set e | e in inbox && inbox[e] != old(inbox)[e];
    }

    method PurgeByEventClass(c: Pipeline.Class, before: int) returns (purged: nat)
      modifies this
      ensures View() == Pipeline.Purge(old(View()), c, before)
      ensures purged == |set k | k in deliveries && deliveries[k] != old(deliveries)[k]|
                        + |set e | e in outbox && outbox[e] != old(outbox)[e]|
                        + |set e | e in inbox && inbox[e] != old(inbox)[e]|
    {
      var d := PurgeDeliveries(c, before);
      var o := PurgeOutbox(c, before);
      var i := PurgeInbox(c, before);
      purged := d + o + i;
    }

    method MarkFailed(k: Pipeline.Key, retryAt: int)
      modifies this
      ensures View() == Pipeline.MarkFailed(old(View()), k, retryAt)
      ensures deliveries == if !(k in old(deliveries) && old(deliveries)[k].status == Pipeline.InFlight)
                            then old(deliveries)
                            else if old(deliveries)[k].attempts >= 5
                            then old(deliveries)[k := old(deliveries)[k].(status := Pipeline.GaveUp,
                                                                          nextAt := retryAt, lease := None)]
                            else old(deliveries)[k := old(deliveries)[k].(status := Pipeline.Waiting,
                                                                          nextAt := retryAt, lease := None)]
    {
      if k in deliveries && deliveries[k].status == Pipeline.InFlight {
        var d := deliveries[k];
        var next := Pipeline.Waiting;
        if d.attempts >= Pipeline.MaxDeliveryAttempts { next := Pipeline.GaveUp; }
        deliveries := deliveries[k := d.(status := next, nextAt := retryAt, lease := None)];
      }
    }

    /** One transaction: pick the first due row nobody has locked, read its subscribers, insert one
        delivery for each, and close the row. */
    method DispatchNextOutbox(locked: set<nat>) returns (picked: Option<nat>)
      modifies this
      ensures picked.None? ==> View() == old(View()) && forall e :: IsOpen(outbox, now, e) ==> e in locked
      ensures picked.Some? ==>
                && picked.value !in locked && Pipeline.Dispatchable(old(View()), picked.value)
                && View() == Pipeline.Dispatch(old(View()), picked.value)
                && Dispatched(old(deliveries), old(outbox), webhooks, now, picked.value, deliveries, outbox)
                && (forall e | e !in locked && IsOpen(old(outbox), now, e) ::
                      DispatchFirst(old(outbox)[picked.value], old(outbox)[e]))
    {
      var due := set e | e in outbox && e !in locked && outbox[e].status == Pipeline.OutPending
                         && outbox[e].nextAt <= now && outbox[e].hasPayload;
      assert forall e :: IsOpen(outbox, now, e) && e !in locked ==> e in due;
      if due == {} { return None; }
      FirstOutboxRow(due, outbox);
      var e :| e in due && forall y | y in due :: DispatchFirst(outbox[e], outbox[y]);
      picked := Some(e);
      ghost var before := View();
      var out := outbox[e];
      var subscribed := CollectSubscribers(out);
      var added := InsertDeliveries(deliveries, e, subscribed, Pipeline.NewDelivery(out, now));
      recipients := recipients[e := Elements(subscribed)];
      dispatches := dispatches + [e];
      assert Elements(subscribed) == Pipeline.Subscribed(before, out);
      deliveries := added;
      outbox := outbox[e := out.(status := Pipeline.Dispatched, lease := None)];
    }

    method CollectSubscribers(out: Pipeline.OutboxRow) returns (ids: seq<nat>)
      ensures forall w :: w in ids <==> w in webhooks && webhooks[w].team == out.team && webhooks[w].active
                                        && out.event in webhooks[w].events
    {
      ids := [];
      var rest := webhooks.Keys;
      while rest != {}
        invariant rest <= webhooks.Keys
        invariant forall w :: w in ids <==> w !in rest && w in webhooks && webhooks[w].team == out.team
                                            && webhooks[w].active && out.event in webhooks[w].events
        decreases |rest|
      {
        var w :| w in rest;
        rest := rest - {w};
        if webhooks[w].team == out.team && webhooks[w].active && out.event in webhooks[w].events {
          ids := ids + [w];
        }
      }
    }
  }

  method InsertDeliveries(ds: map<Pipeline.Key, Pipeline.Delivery>, e: nat, ids: seq<nat>, d: Pipeline.Delivery)
    returns (r: map<Pipeline.Key, Pipeline.Delivery>)
    ensures r == Pipeline.AddDeliveries(ds, e, Elements(ids), d)
  {
    r := ds;
    var i := 0;
    while i < |ids|
      invariant 0 <= i <= |ids|
      invariant r == Pipeline.AddDeliveries(ds, e, Elements(ids[..i]), d)
    {
      if (ids[i], e) !in r { r := r[(ids[i], e) := d]; }
      assert forall w :: w in ids[..i + 1] <==> w in ids[..i] || w == ids[i];
      i := i + 1;
    }
    assert ids[..i] == ids;
  }

  // --------------------------------------------------------- operator review

  datatype Decision = Resolved(row: EmailRows.Row) | NotInReview | NoConfirmation

  /** A correlated, non-ignored send or delivery callback. Event types are in canonical form. */
  predicate Confirms(r: Pipeline.InboxRow, email: nat, attempt: Option<nat>) {
    && r.status != Pipeline.Ignored
    && r.kind in {"send", "delivery"}
    && (r.emailId == Some(email) || (attempt.Some? && r.attemptId == attempt))
  }

  ghost predicate Confirmed(inbox: map<nat, Pipeline.InboxRow>, email: nat, attempt: Option<nat>, pid: string) {
    exists e | e in inbox :: inbox[e].pid == pid && Confirms(inbox[e], email, attempt)
  }

  function Receipts(inbox: map<nat, Pipeline.InboxRow>, email: nat, attempt: Option<nat>): set<string> {
    set e | e in inbox && Confirms(inbox[e], email, attempt) :: inbox[e].pid
  }

  /** The operator's receipt, else the one on the row, else the only one in the inbox. */
  ghost predicate Offered(inbox: map<nat, Pipeline.InboxRow>, row: EmailRows.Row, email: nat, requested: string,
      pid: string) {
    if requested != "" then pid == requested
    else if row.providerId.Some? && row.providerId.value != "" then pid == row.providerId.value
    else Receipts(inbox, email, row.attemptId) == {pid}
  }

  /** The reads and guards of `ReconcileAmbiguous`; receipts are already trimmed. */
  method ReconcileAccepted(inbox: map<nat, Pipeline.InboxRow>, row: EmailRows.Row, email: nat, requested: string)
    returns (d: Decision)
    // accepted exactly if the email is in review and some offered receipt is confirmed
    ensures d.Resolved? <==>
            && row.status == Ambiguous && row.state == Unresolved
            && exists pid :: pid != "" && Offered(inbox, row, email, requested, pid)
                             && Confirmed(inbox, email, row.attemptId, pid)
    ensures d.NotInReview? <==> !(row.status == Ambiguous && row.state == Unresolved)
    // and it is that receipt which is stored
    ensures d.Resolved? ==>
              exists pid :: pid != "" && Offered(inbox, row, email, requested, pid)
                            && Confirmed(inbox, email, row.attemptId, pid)
                            && d.row == row.(status := Sent, state := Accepted, fence := None, lease := None,
                                             sendingAt := None, recovery := false, providerId := Some(pid))
    ensures d.Resolved? ==>
              && d.row.providerId.Some?
              && d.row == EmailRows.Exec(row, EmailRows.ReconcileAccepted(d.row.providerId.value), 0)
  {
    if row.status != Ambiguous || row.state != Unresolved { return NotInReview; }
    var pid := requested;
    if pid == "" && row.providerId.Some? { pid := row.providerId.value; }
    var receipts := Receipts(inbox, email, row.attemptId);
    if pid == "" && |receipts| == 1 {
      pid :| pid in receipts;
      TheOnlyOne(receipts, pid);
    }
    assert forall p | p != "" && Offered(inbox, row, email, requested, p) :: p == pid by {
      forall p | p != "" && Offered(inbox, row, email, requested, p) ensures p == pid {
        if requested == "" && !(row.providerId.Some? && row.providerId.value != "") {
          assert receipts == {p};
          assert |receipts| == 1;
        }
      }
    }
    if pid == "" { return NoConfirmation; }
    assert Offered(inbox, row, email, requested, pid);
    if pid !in receipts {
      assert !Confirmed(inbox, email, row.attemptId, pid);
      return NoConfirmation;
    }
    assert Confirmed(inbox, email, row.attemptId, pid);
    d := Resolved(EmailRows.Released(row, Sent, Accepted).(providerId := Some(pid)));
    assert d.row == EmailRows.Exec(row, EmailRows.ReconcileAccepted(pid), 0);
  }

  lemma TheOnlyOne(s: set<string>, x: string)
    requires |s| == 1 && x in s
    ensures s == {x}
  {
    assert |s - {x}| == 0;
  }
}
