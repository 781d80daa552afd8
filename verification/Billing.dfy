/** Stripe events: which fields a team ends up with (internal/repository/team_repo.go:230-269,
    internal/service/billing_service.go:126-187). */
module Billing {
  import opened EmailDomain

  datatype Plan = Free | Pro | Scale

  datatype Fields = Fields(
    customer: Option<string>, subscription: Option<string>, plan: Plan, status: string,
    periodEnd: Option<int>, cancelAtPeriodEnd: bool)

  /** One call of `ApplyBillingEvent`. */
  datatype Event = Event(id: string, created: int, team: nat, fields: Fields)

  datatype Team = Team(fields: Fields, created: int, eventId: string)

  datatype State = State(teams: map<nat, Team>, seen: set<string>)

  const NoBilling := Team(Fields(None, None, Free, "inactive", None, false), 0, "")

  // ---------------------------------------------------------------- the order

  /** Event ids compare as text. */
  predicate TextLe(a: string, b: string) {
    if a == [] then true
    else if b == [] then false
    else if a[0] == b[0] then TextLe(a[1..], b[1..])
    else a[0] < b[0]
  }

  predicate Le(c1: int, i1: string, c2: int, i2: string) {
    c1 < c2 || (c1 == c2 && TextLe(i1, i2))
  }

  lemma {:induction false} TextOrder(a: string, b: string, c: string)
    ensures TextLe(a, a) && (TextLe(a, b) || TextLe(b, a))
    ensures TextLe(a, b) && TextLe(b, a) ==> a == b
    ensures TextLe(a, b) && TextLe(b, c) ==> TextLe(a, c)
  {
    if a != [] {
      TextOrder(a[1..], if b != [] then b[1..] else b, if c != [] then c[1..] else c);
    }
  }

  lemma EventOrder(c1: int, i1: string, c2: int, i2: string, c3: int, i3: string)
    ensures Le(c1, i1, c1, i1) && (Le(c1, i1, c2, i2) || Le(c2, i2, c1, i1))
    ensures Le(c1, i1, c2, i2) && Le(c2, i2, c1, i1) ==> c1 == c2 && i1 == i2
    ensures Le(c1, i1, c2, i2) && Le(c2, i2, c3, i3) ==> Le(c1, i1, c3, i3)
  {
    TextOrder(i1, i2, i3);
  }

  // --------------------------------------------------------------- one delivery

  function ApplyEvent(s: State, e: Event): State {
    if e.id in s.seen then s
    else
      var s' := s.(seen := s.seen + {e.id});
      if e.team in s.teams && Le(s.teams[e.team].created, s.teams[e.team].eventId, e.created, e.id)
      then s'.(teams := s.teams[e.team := Team(e.fields, e.created, e.id)])
      else s'
  }

  class TeamStore {
    var teams: map<nat, Team>
    var seen: set<string>

    ghost function View(): State reads this {
      State(teams, seen)
    }

    constructor (ids: set<nat>)
      ensures View() == Fresh(ids)
    {
      teams, seen := map t | t in ids :: NoBilling, {};
    }

    method ApplyBillingEvent(e: Event)
      modifies this
      ensures View() == ApplyEvent(old(View()), e)
    {
      if e.id in seen { return; }
      seen := seen + {e.id};
      if e.team in teams {
        var t := teams[e.team];
        if t.created < e.created || (t.created == e.created && TextLe(t.eventId, e.id)) {
          teams := teams[e.team := t.(fields := e.fields, created := e.created, eventId := e.id)];
        }
      }
    }
  }

  function Fresh(ids: set<nat>): State {
    State(map t | t in ids :: NoBilling, {})
  }

  function Deliver(s: State, es: seq<Event>): State {
    if es == [] then s else ApplyEvent(Deliver(s, es[..|es| - 1]), es[|es| - 1])
  }

  // ---------------------------------------------------------------- convergence

  /** A redelivery carries the same call: one id, one content. */
  ghost predicate OneContentPerId(es: seq<Event>) {
    forall a, b | a in es && b in es && a.id == b.id :: a == b
  }

  /** `t` carries the greatest event for the team, or nothing if every event is below the
      initial mark. */
  ghost predicate IsLatest(t: Team, team: nat, es: seq<Event>) {
    && (t == NoBilling || exists e | e in es :: e.team == team && t == Team(e.fields, e.created, e.id))
    && (forall e | e in es && e.team == team :: Le(e.created, e.id, t.created, t.eventId))
    && Le(NoBilling.created, NoBilling.eventId, t.created, t.eventId)
  }

  ghost predicate Holds(s: State, es: seq<Event>, teams: set<nat>) {
    && s.teams.Keys == teams
    && (forall e | e in es :: e.id in s.seen)
    && (forall id | id in s.seen :: exists e | e in es :: e.id == id)
    && (forall t | t in teams :: IsLatest(s.teams[t], t, es))
  }

  /** Events above the initial mark never meet it exactly. */
  predicate Proper(es: seq<Event>) {
    forall e | e in es :: e.id != ""
  }

  lemma DeliveryStep(s: State, es: seq<Event>, e: Event, teams: set<nat>)
    requires Holds(s, es, teams) && OneContentPerId(es + [e])
    ensures Holds(ApplyEvent(s, e), es + [e], teams)
  {
    var s', all := ApplyEvent(s, e), es + [e];
    assert e in all && forall x | x in es :: x in all;
    if e.id in s.seen {
      var d :| d in es && d.id == e.id;
      assert d in all && d == e;
      assert forall x | x in all :: x in es;
    }
    forall t | t in teams ensures IsLatest(s'.teams[t], t, all) {
      LatestAfter(s, es, e, teams, t);
    }
  }

  lemma LatestAfter(s: State, es: seq<Event>, e: Event, teams: set<nat>, t: nat)
    requires Holds(s, es, teams) && OneContentPerId(es + [e]) && t in teams
    ensures IsLatest(ApplyEvent(s, e).teams[t], t, es + [e])
  {
    var now, next := s.teams[t], ApplyEvent(s, e).teams[t];
    assert e in es + [e] && forall x | x in es :: x in es + [e];
    if e.id in s.seen {
      var d :| d in es && d.id == e.id;
      assert d in es + [e];
      assert d == e;
    }
    EventOrder(now.created, now.eventId, e.created, e.id, now.created, now.eventId);
    EventOrder(0, "", now.created, now.eventId, e.created, e.id);
    forall x | x in es + [e] && x.team == t ensures Le(x.created, x.id, next.created, next.eventId) {
      EventOrder(x.created, x.id, now.created, now.eventId, next.created, next.eventId);
      EventOrder(e.created, e.id, e.created, e.id, e.created, e.id);
    }
  }

  lemma {:induction false} DeliverHolds(ids: set<nat>, es: seq<Event>)
    requires OneContentPerId(es)
    ensures Holds(Deliver(Fresh(ids), es), es, ids)
    decreases |es|
  {
    if es == [] {
      EventOrder(0, "", 0, "", 0, "");
    } else {
      var rest, e := es[..|es| - 1], es[|es| - 1];
      assert es == rest + [e] && forall x | x in rest :: x in es;
      DeliverHolds(ids, rest);
      DeliveryStep(Deliver(Fresh(ids), rest), rest, e, ids);
    }
  }

  lemma LatestIsUnique(a: Team, b: Team, team: nat, es: seq<Event>, fs: seq<Event>)
    requires IsLatest(a, team, es) && IsLatest(b, team, fs)
    requires OneContentPerId(es) && Proper(es) && forall e :: e in es <==> e in fs
    ensures a == b
  {
    EventOrder(a.created, a.eventId, b.created, b.eventId, 0, "");
    assert Le(a.created, a.eventId, b.created, b.eventId);
    assert Le(b.created, b.eventId, a.created, a.eventId);
  }

  lemma SameTeams(a: State, b: State, ids: set<nat>, es: seq<Event>, fs: seq<Event>)
    requires Holds(a, es, ids) && Holds(b, fs, ids)
    requires OneContentPerId(es) && Proper(es) && forall e :: e in es <==> e in fs
    ensures a.teams == b.teams
  {
    forall t | t in ids ensures a.teams[t] == b.teams[t] {
      LatestIsUnique(a.teams[t], b.teams[t], t, es, fs);
    }
  }

  /** Whatever the order and however many duplicates, every team ends with the fields of its
      greatest (created, id). */
  lemma BillingConverges(ids: set<nat>, es: seq<Event>, fs: seq<Event>, team: nat)
    requires OneContentPerId(es) && Proper(es) && (forall e :: e in es <==> e in fs) && team in ids
    ensures Deliver(Fresh(ids), es).teams == Deliver(Fresh(ids), fs).teams
    ensures team in Deliver(Fresh(ids), es).teams
    ensures IsLatest(Deliver(Fresh(ids), es).teams[team], team, es)
  {
    DeliverHolds(ids, es);
    DeliverHolds(ids, fs);
    SameTeams(Deliver(Fresh(ids), es), Deliver(Fresh(ids), fs), ids, es, fs);
  }

  // ------------------------------------------------------------------ plans

  datatype Kind = CheckoutCompleted | SubscriptionChanged | SubscriptionDeleted | PaymentFailed | OtherKind

  /** What the webhook object says, after decoding. */
  datatype Object = Object(
    customer: string, subscription: string, metadataPlan: Plan, pricePlan: Plan, status: string,
    periodEnd: Option<int>, cancelAtPeriodEnd: bool)

  predicate SubscriptionIsActive(status: string) {
    status == "active" || status == "trialing"
  }

  function Present(s: string): Option<string> {
    if s == "" then None else Some(s)
  }

  /** `applyWebhookEvent`: the call made for an event, if any. */
  function Interpret(kind: Kind, o: Object, known: Option<string>): Option<Fields> {
    var customer := if o.customer == "" then known else Some(o.customer);
    match kind
    case CheckoutCompleted => Some(Fields(customer, Present(o.subscription), o.metadataPlan, "active", None, false))
    case SubscriptionChanged =>
      var status := if o.status == "" then "active" else o.status;
      var plan := if SubscriptionIsActive(status) then o.pricePlan else Free;
      Some(Fields(customer, Present(o.subscription), plan, status, o.periodEnd, o.cancelAtPeriodEnd))
    case SubscriptionDeleted =>
      Some(Fields(customer, None, Free, if o.status == "" then "canceled" else o.status, None, false))
    case PaymentFailed => Some(Fields(customer, Present(o.subscription), Free, "past_due", None, false))
    case OtherKind => None
  }

  predicate PaidIsActive(f: Fields) {
    f.plan != Free ==> SubscriptionIsActive(f.status)
  }

  ghost predicate FromWebhook(e: Event) {
    exists kind, o, known :: Interpret(kind, o, known) == Some(e.fields)
  }

  /** In every reachable state a paid plan means an active or trialing subscription. */
  lemma {:induction false} PaidPlansAreActive(ids: set<nat>, es: seq<Event>, team: nat)
    requires (forall e | e in es :: FromWebhook(e)) && team in ids
    ensures team in Deliver(Fresh(ids), es).teams && PaidIsActive(Deliver(Fresh(ids), es).teams[team].fields)
    decreases |es|
  {
    if es != [] {
      var rest, e := es[..|es| - 1], es[|es| - 1];
      assert forall x | x in rest :: x in es;
      PaidPlansAreActive(ids, rest, team);
      assert e in es;
      var kind, o, known :| Interpret(kind, o, known) == Some(e.fields);
      assert PaidIsActive(e.fields);
    }
  }

  /** A webhook call about a known team. */
  datatype Hook = Hook(id: string, created: int, team: nat, kind: Kind, what: Object, known: Option<string>)

  /** What they lead to, in order: the kinds that are not handled lead to nothing. */
  function Events(hooks: seq<Hook>): seq<Event> {
    if hooks == [] then []
    else
      var h, fields := hooks[0], Interpret(hooks[0].kind, hooks[0].what, hooks[0].known);
      (if fields.Some? then [Event(h.id, h.created, h.team, fields.value)] else []) + Events(hooks[1..])
  }

  lemma {:induction false} EventsComeFromHooks(hooks: seq<Hook>)
    ensures forall e | e in Events(hooks) :: exists h | h in hooks :: IsFrom(e, h)
    ensures forall h | h in hooks && h.kind != OtherKind :: exists e | e in Events(hooks) :: IsFrom(e, h)
  {
    if hooks != [] {
      var h, rest, all := hooks[0], hooks[1..], Events(hooks);
      EventsComeFromHooks(rest);
      var fields := Interpret(h.kind, h.what, h.known);
      assert fields.Some? ==> IsFrom(all[0], h) && all[0] in all;
      assert forall e | e in Events(rest) :: e in all;
      forall e | e in all ensures exists g | g in hooks :: IsFrom(e, g) {
        if e in Events(rest) {
          var g :| g in rest && IsFrom(e, g);
          assert g in hooks;
        } else {
          assert h in hooks && IsFrom(e, h);
        }
      }
    }
  }

  predicate IsFrom(e: Event, h: Hook) {
    && e.id == h.id && e.created == h.created && e.team == h.team
    && Interpret(h.kind, h.what, h.known) == Some(e.fields)
  }

  /** The fields that a webhook call gives its team. */
  predicate Gives(h: Hook, f: Fields) {
    && f.customer == (if h.what.customer != "" then Some(h.what.customer) else h.known)
    && (h.kind == CheckoutCompleted ==> f.plan == h.what.metadataPlan && f.status == "active")
    && (h.kind == SubscriptionChanged && h.what.status in {"", "active", "trialing"} ==>
          f.plan == h.what.pricePlan && f.status in {"active", "trialing"})
    && (h.kind == SubscriptionChanged && h.what.status !in {"", "active", "trialing"} ==>
          f.plan == Free && f.status == h.what.status)
    && (h.kind == SubscriptionDeleted ==> f.plan == Free && f.subscription == None)
    && (h.kind == PaymentFailed ==> f.plan == Free && f.status == "past_due")
    && (h.kind != SubscriptionDeleted ==>
          f.subscription == if h.what.subscription == "" then None else Some(h.what.subscription))
    && (h.kind == SubscriptionChanged ==>
          f.periodEnd == h.what.periodEnd && f.cancelAtPeriodEnd == h.what.cancelAtPeriodEnd)
    && (h.kind != SubscriptionChanged ==> f.periodEnd == None && !f.cancelAtPeriodEnd)
    && h.kind != OtherKind
  }

  ghost predicate OneContentPerHook(hooks: seq<Hook>) {
    forall a, b | a in hooks && b in hooks && a.id == b.id :: a == b
  }

  /** Whatever the order of the webhook calls, a team ends as the latest of its handled calls
      says, or without billing if all of them are older than anything. */
  lemma PlanFollowsTheLatestHook(ids: set<nat>, hooks: seq<Hook>, team: nat)
    requires OneContentPerHook(hooks) && team in ids
    ensures team in Deliver(Fresh(ids), Events(hooks)).teams
    ensures var t := Deliver(Fresh(ids), Events(hooks)).teams[team];
            && (t == NoBilling || exists h | h in hooks ::
                  h.team == team && h.id == t.eventId && h.created == t.created && Gives(h, t.fields))
            && (forall h | h in hooks && h.team == team && h.kind != OtherKind ::
                  Le(h.created, h.id, t.created, t.eventId))
  {
    var es := Events(hooks);
    EventsComeFromHooks(hooks);
    forall a, b | a in es && b in es && a.id == b.id ensures a == b {
      var g :| g in hooks && IsFrom(a, g);
      var h :| h in hooks && IsFrom(b, h);
      assert g == h;
    }
    DeliverHolds(ids, es);
    var t := Deliver(Fresh(ids), es).teams[team];
    assert IsLatest(t, team, es);
    if t != NoBilling {
      var e :| e in es && e.team == team && t == Team(e.fields, e.created, e.id);
      var h :| h in hooks && IsFrom(e, h);
      assert Gives(h, e.fields);
    }
    forall h | h in hooks && h.team == team && h.kind != OtherKind ensures Le(h.created, h.id, t.created, t.eventId) {
      var e :| e in es && IsFrom(e, h);
    }
  }
}
