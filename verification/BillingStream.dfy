/** Whole webhook streams. An event without a customer keeps the one its team has at that moment,
    so what a stream leaves behind may depend on its order
    (internal/service/billing_service.go:129-187). */
module BillingStream {
  import opened EmailDomain
  import opened Billing

  /** A webhook event whose metadata names its team. */
  datatype Hook = Hook(id: string, created: int, team: nat, kind: Kind, o: Object)

  function Known(s: State, team: nat): Option<string> {
    if team in s.teams then s.teams[team].fields.customer else None
  }

  function Heed(s: State, h: Hook): State {
    var f := Interpret(h.kind, h.o, Known(s, h.team));
    if f.None? || h.team !in s.teams then s else ApplyEvent(s, Event(h.id, h.created, h.team, f.value))
  }

  function Stream(s: State, hs: seq<Hook>): State {
    if hs == [] then s else Heed(Stream(s, hs[..|hs| - 1]), hs[|hs| - 1])
  }

  predicate Names(h: Hook) {
    h.o.customer != ""
  }

  /** The event leads to a call for the team. */
  predicate Concerns(h: Hook, team: nat) {
    h.team == team && !h.kind.OtherKind?
  }

  predicate Below(a: Hook, b: Hook) {
    Le(a.created, a.id, b.created, b.id)
  }

  predicate IsGreatest(g: Hook, team: nat, hs: seq<Hook>) {
    g in hs && Concerns(g, team) && forall h | h in hs && Concerns(h, team) :: Below(h, g)
  }

  /** The last word on the team names a customer, or nobody does. */
  ghost predicate Decided(team: nat, hs: seq<Hook>) {
    || (exists g :: IsGreatest(g, team, hs) && Names(g))
    || (forall h | h in hs && Concerns(h, team) :: !Names(h))
  }

  /** Redeliveries carry the same event; ids are not empty and times not negative. */
  ghost predicate WellFormed(hs: seq<Hook>) {
    && (forall a, b | a in hs && b in hs && a.id == b.id :: a == b)
    && (forall h | h in hs :: h.id != "" && h.created >= 0)
  }

  ghost predicate SameHooks(hs: seq<Hook>, fs: seq<Hook>) {
    forall h :: h in hs <==> h in fs
  }

  // ----------------------------------------------------------------- invariant

  /** A customer the team can have: none, or one that some event of it names. */
  ghost predicate Possible(k: Option<string>, team: nat, hs: seq<Hook>) {
    k.Some? ==> exists h | h in hs :: Concerns(h, team) && Names(h) && k.value == h.o.customer
  }

  ghost predicate CarriedBy(t: Team, g: Hook, k: Option<string>) {
    Interpret(g.kind, g.o, k).Some? && t == Team(Interpret(g.kind, g.o, k).value, g.created, g.id)
  }

  ghost predicate Tracks(t: Team, team: nat, hs: seq<Hook>) {
    || (t == NoBilling && forall h | h in hs :: !Concerns(h, team))
    || exists g, k :: IsGreatest(g, team, hs) && Possible(k, team, hs) && CarriedBy(t, g, k)
  }

  ghost predicate StreamInv(s: State, ids: set<nat>, hs: seq<Hook>) {
    && s.teams.Keys == ids
    && (forall h | h in hs && !h.kind.OtherKind? && h.team in ids :: h.id in s.seen)
    && (forall id | id in s.seen :: exists h | h in hs :: h.id == id)
    && (forall t | t in ids :: Tracks(s.teams[t], t, hs))
  }

  lemma PossibleGrows(k: Option<string>, team: nat, hs: seq<Hook>, h: Hook)
    requires Possible(k, team, hs)
    ensures Possible(k, team, hs + [h])
  {
    if k.Some? {
      var x :| x in hs && Concerns(x, team) && Names(x) && k.value == x.o.customer;
      assert x in hs + [h];
    }
  }

  lemma CustomerIsPossible(t: Team, team: nat, hs: seq<Hook>)
    requires Tracks(t, team, hs)
    ensures Possible(t.fields.customer, team, hs)
  {
    if t != NoBilling || exists h | h in hs :: Concerns(h, team) {
      var g, k :| IsGreatest(g, team, hs) && Possible(k, team, hs) && CarriedBy(t, g, k);
    }
  }

  /** The mark of a tracked team is at or above every event of the team so far. */
  lemma MarkIsGreatest(t: Team, team: nat, hs: seq<Hook>, h: Hook)
    requires Tracks(t, team, hs) && h in hs && Concerns(h, team)
    ensures Le(h.created, h.id, t.created, t.eventId)
  {
    var g, k :| IsGreatest(g, team, hs) && Possible(k, team, hs) && CarriedBy(t, g, k);
  }

  /** A call that beats the mark carries the team from now on. */
  lemma NewCarrier(t: Team, team: nat, hs: seq<Hook>, h: Hook)
    requires Tracks(t, team, hs) && Concerns(h, team) && Le(t.created, t.eventId, h.created, h.id)
    ensures Interpret(h.kind, h.o, t.fields.customer).Some?
    ensures Tracks(Team(Interpret(h.kind, h.o, t.fields.customer).value, h.created, h.id), team, hs + [h])
  {
    var all := hs + [h];
    CustomerIsPossible(t, team, hs);
    PossibleGrows(t.fields.customer, team, hs, h);
    forall x | x in all && Concerns(x, team) ensures Below(x, h) {
      EventOrder(x.created, x.id, t.created, t.eventId, h.created, h.id);
      EventOrder(h.created, h.id, h.created, h.id, h.created, h.id);
      if x in hs { MarkIsGreatest(t, team, hs, x); }
    }
    assert IsGreatest(h, team, all);
    assert CarriedBy(Team(Interpret(h.kind, h.o, t.fields.customer).value, h.created, h.id), h, t.fields.customer);
  }

  /** Anything else leaves the team as it is tracked. */
  lemma SameCarrier(t: Team, team: nat, hs: seq<Hook>, h: Hook)
    requires Tracks(t, team, hs)
    requires Concerns(h, team) ==> h in hs || (t != NoBilling && !Le(t.created, t.eventId, h.created, h.id))
    ensures Tracks(t, team, hs + [h])
  {
    var all := hs + [h];
    if exists g, k :: IsGreatest(g, team, hs) && Possible(k, team, hs) && CarriedBy(t, g, k) {
      var g, k :| IsGreatest(g, team, hs) && Possible(k, team, hs) && CarriedBy(t, g, k);
      PossibleGrows(k, team, hs, h);
      EventOrder(h.created, h.id, t.created, t.eventId, h.created, h.id);
      assert IsGreatest(g, team, all);
    }
  }

  lemma HeedKeepsTracks(s: State, ids: set<nat>, hs: seq<Hook>, h: Hook, t: nat)
    requires StreamInv(s, ids, hs) && WellFormed(hs + [h]) && t in ids
    ensures t in Heed(s, h).teams && Tracks(Heed(s, h).teams[t], t, hs + [h])
  {
    var now := s.teams[t];
    if Concerns(h, t) {
      SeenBefore(s, ids, hs, h);
      EventOrder(now.created, now.eventId, h.created, h.id, now.created, now.eventId);
      if h.id !in s.seen && Le(now.created, now.eventId, h.created, h.id) {
        NewCarrier(now, t, hs, h);
      } else {
        SameCarrier(now, t, hs, h);
      }
    } else {
      SameCarrier(now, t, hs, h);
    }
  }

  /** A redelivered id is a redelivered event, and a first event beats the initial mark. */
  lemma SeenBefore(s: State, ids: set<nat>, hs: seq<Hook>, h: Hook)
    requires StreamInv(s, ids, hs) && WellFormed(hs + [h])
    ensures h.id in s.seen ==> h in hs
    ensures Le(NoBilling.created, NoBilling.eventId, h.created, h.id)
  {
    assert h in hs + [h] && forall x | x in hs :: x in hs + [h];
    if h.id in s.seen {
      var x :| x in hs && x.id == h.id;
      assert x == h;
    }
  }

  lemma HeedKeepsSeen(s: State, ids: set<nat>, hs: seq<Hook>, h: Hook)
    requires StreamInv(s, ids, hs)
    ensures var s', all := Heed(s, h), hs + [h];
            && s'.teams.Keys == ids
            && (forall x | x in all && !x.kind.OtherKind? && x.team in ids :: x.id in s'.seen)
            && (forall id | id in s'.seen :: exists x | x in all :: x.id == id)
  {
    var s', all := Heed(s, h), hs + [h];
    assert h in all;
    forall id | id in s'.seen ensures exists x | x in all :: x.id == id {
      if id in s.seen {
        var x :| x in hs && x.id == id;
        assert x in all;
      }
    }
  }

  lemma HeedKeepsInv(s: State, ids: set<nat>, hs: seq<Hook>, h: Hook)
    requires StreamInv(s, ids, hs) && WellFormed(hs + [h])
    ensures StreamInv(Heed(s, h), ids, hs + [h])
  {
    HeedKeepsSeen(s, ids, hs, h);
    forall t | t in ids ensures Tracks(Heed(s, h).teams[t], t, hs + [h]) {
      HeedKeepsTracks(s, ids, hs, h, t);
    }
  }

  lemma {:induction false} StreamHolds(ids: set<nat>, hs: seq<Hook>)
    requires WellFormed(hs)
    ensures StreamInv(Stream(Fresh(ids), hs), ids, hs)
    decreases |hs|
  {
    if hs != [] {
      var rest, h := hs[..|hs| - 1], hs[|hs| - 1];
      assert hs == rest + [h] && forall x | x in rest :: x in hs;
      StreamHolds(ids, rest);
      HeedKeepsInv(Stream(Fresh(ids), rest), ids, rest, h);
    }
  }

  // ------------------------------------------------------------------ theorems

  lemma OneGreatest(a: Hook, b: Hook, team: nat, hs: seq<Hook>)
    requires WellFormed(hs) && IsGreatest(a, team, hs) && IsGreatest(b, team, hs)
    ensures a == b
  {
    EventOrder(a.created, a.id, b.created, b.id, a.created, a.id);
  }

  /** The customer that was known when a decided team got its last word does not matter. */
  lemma LastWordIsFixed(g: Hook, k: Option<string>, m: Option<string>, team: nat, hs: seq<Hook>, fs: seq<Hook>)
    requires WellFormed(hs) && SameHooks(hs, fs) && Decided(team, hs) && IsGreatest(g, team, hs)
    requires Possible(k, team, hs) && Possible(m, team, fs)
    ensures Interpret(g.kind, g.o, k) == Interpret(g.kind, g.o, m)
  {
    if !Names(g) {
      forall x | IsGreatest(x, team, hs) ensures x == g { OneGreatest(x, g, team, hs); }
      assert k.None? && m.None?;
    }
  }

  /** Two tracked teams with the same, decided events are the same. */
  lemma DecidedAlike(a: Team, b: Team, team: nat, hs: seq<Hook>, fs: seq<Hook>)
    requires WellFormed(hs) && SameHooks(hs, fs) && Decided(team, hs)
    requires Tracks(a, team, hs) && Tracks(b, team, fs)
    ensures a == b
  {
    if h :| h in hs && Concerns(h, team) {
      var g, k :| IsGreatest(g, team, hs) && Possible(k, team, hs) && CarriedBy(a, g, k);
      assert h in fs;
      var f, m :| IsGreatest(f, team, fs) && Possible(m, team, fs) && CarriedBy(b, f, m);
      assert IsGreatest(f, team, hs);
      OneGreatest(g, f, team, hs);
      LastWordIsFixed(g, k, m, team, hs, fs);
    }
  }

  lemma {:induction false} StreamAppend(s: State, a: seq<Hook>, b: seq<Hook>)
    ensures Stream(s, a + b) == Stream(Stream(s, a), b)
    decreases |b|
  {
    if b == [] {
      assert a + b == a;
    } else {
      assert (a + b)[..|a + b| - 1] == a + b[..|b| - 1];
      StreamAppend(s, a, b[..|b| - 1]);
    }
  }

  /** A team that carries its greatest event is not moved by anything below it. */
  lemma {:induction false} OlderEventsChangeNothing(s: State, hs: seq<Hook>, g: Hook, t: nat)
    requires t in s.teams && s.teams[t].created == g.created && s.teams[t].eventId == g.id && g.id in s.seen
    requires forall h | h in hs && Concerns(h, t) :: Below(h, g)
    ensures t in Stream(s, hs).teams && Stream(s, hs).teams[t] == s.teams[t] && g.id in Stream(s, hs).seen
    decreases |hs|
  {
    if hs != [] {
      var rest, h := hs[..|hs| - 1], hs[|hs| - 1];
      assert h in hs && forall x | x in rest :: x in hs;
      OlderEventsChangeNothing(s, rest, g, t);
      EventOrder(h.created, h.id, g.created, g.id, h.created, h.id);
    }
  }

  lemma GreatestExists(team: nat, hs: seq<Hook>, ids: set<nat>) returns (g: Hook)
    requires WellFormed(hs) && team in ids && exists h | h in hs :: Concerns(h, team)
    ensures IsGreatest(g, team, hs)
  {
    StreamHolds(ids, hs);
    var t := Stream(Fresh(ids), hs).teams[team];
    var f, k :| IsGreatest(f, team, hs) && Possible(k, team, hs) && CarriedBy(t, f, k);
    g := f;
  }

  /** The greatest event comes first: the team is left without a customer. */
  lemma GreatestFirst(ids: set<nat>, hs: seq<Hook>, g: Hook, t: nat)
    requires WellFormed(hs) && t in ids && IsGreatest(g, t, hs) && !Names(g)
    ensures t in Stream(Fresh(ids), [g] + hs).teams
    ensures Stream(Fresh(ids), [g] + hs).teams[t].fields.customer == None
  {
    var s := Heed(Fresh(ids), g);
    assert Stream(Fresh(ids), [g]) == s;
    StreamAppend(Fresh(ids), [g], hs);
    OlderEventsChangeNothing(s, hs, g, t);
  }

  /** An event that names a customer comes first, then the greatest: the customer stays. */
  lemma GreatestAfter(ids: set<nat>, hs: seq<Hook>, e: Hook, g: Hook, t: nat)
    requires WellFormed(hs) && t in ids && IsGreatest(g, t, hs) && !Names(g)
    requires e in hs && Concerns(e, t) && Names(e)
    ensures t in Stream(Fresh(ids), [e, g] + hs).teams
    ensures Stream(Fresh(ids), [e, g] + hs).teams[t].fields.customer == Some(e.o.customer)
  {
    var s1 := Heed(Fresh(ids), e);
    var s2 := Heed(s1, g);
    assert [e, g][..1] == [e];
    assert Stream(Fresh(ids), [e]) == s1;
    assert Stream(Fresh(ids), [e, g]) == s2;
    assert e.id != g.id;
    StreamAppend(Fresh(ids), [e, g], hs);
    OlderEventsChangeNothing(s2, hs, g, t);
  }

  lemma UndecidedDiffers(ids: set<nat>, hs: seq<Hook>, t: nat) returns (a: seq<Hook>, b: seq<Hook>)
    requires WellFormed(hs) && t in ids && !Decided(t, hs)
    ensures SameHooks(hs, a) && SameHooks(hs, b) && Stream(Fresh(ids), a).teams != Stream(Fresh(ids), b).teams
  {
    var e :| e in hs && Concerns(e, t) && Names(e);
    var g := GreatestExists(t, hs, ids);
    GreatestFirst(ids, hs, g, t);
    GreatestAfter(ids, hs, e, g, t);
    a, b := [g] + hs, [e, g] + hs;
  }

  lemma DecidedConverges(ids: set<nat>, hs: seq<Hook>, fs: seq<Hook>)
    requires WellFormed(hs) && SameHooks(hs, fs) && forall t | t in ids :: Decided(t, hs)
    ensures Stream(Fresh(ids), fs).teams == Stream(Fresh(ids), hs).teams
  {
    assert WellFormed(fs);
    StreamHolds(ids, hs);
    StreamHolds(ids, fs);
    TeamsAlike(Stream(Fresh(ids), hs).teams, Stream(Fresh(ids), fs).teams, ids, hs, fs);
  }

  lemma TeamsAlike(a: map<nat, Team>, b: map<nat, Team>, ids: set<nat>, hs: seq<Hook>, fs: seq<Hook>)
    requires WellFormed(hs) && SameHooks(hs, fs) && forall t | t in ids :: Decided(t, hs)
    requires a.Keys == ids && forall t | t in ids :: Tracks(a[t], t, hs)
    requires b.Keys == ids && forall t | t in ids :: Tracks(b[t], t, fs)
    ensures a == b
  {
    forall t | t in ids ensures a[t] == b[t] {
      DecidedAlike(a[t], b[t], t, hs, fs);
    }
  }

  /** Every order and duplication of the stream leaves the same teams. */
  ghost predicate Converges(ids: set<nat>, hs: seq<Hook>) {
    forall fs | SameHooks(hs, fs) :: Stream(Fresh(ids), fs).teams == Stream(Fresh(ids), hs).teams
  }

  /** A stream converges if and only if for each team the greatest event names its customer, or
      no event does. */
  lemma StreamConvergesIff(ids: set<nat>, hs: seq<Hook>)
    requires WellFormed(hs)
    ensures Converges(ids, hs) <==> forall t | t in ids :: Decided(t, hs)
  {
    if forall t | t in ids :: Decided(t, hs) {
      forall fs | SameHooks(hs, fs) ensures Stream(Fresh(ids), fs).teams == Stream(Fresh(ids), hs).teams {
        DecidedConverges(ids, hs, fs);
      }
    } else {
      var t :| t in ids && !Decided(t, hs);
      var a, b := UndecidedDiffers(ids, hs, t);
    }
  }
}
