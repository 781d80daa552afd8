/** What a stream of provider callbacks does to the status of one email. Callbacks
    arrive at least once and in any order. */
module ProviderStatus {
  import opened EmailDomain

  type Target = Option<Status>

  /** The targets that `providerEventDetails` can produce. */
  predicate IsCallback(t: Target) {
    t.Some? ==> t.value in {Sent, Delivered, Opened, Clicked, Bounced, Complained, Failed}
  }

  /** The status a callback kind asks for, in canonical spelling (internal/service/ses_events.go). */
  function CallbackTarget(kind: string): (t: Target)
    ensures IsCallback(t)
  {
    if kind == "send" then Some(Sent)
    else if kind == "delivery" then Some(Delivered)
    else if kind == "bounce" then Some(Bounced)
    else if kind == "complaint" then Some(Complained)
    else if kind in {"reject", "rendering_failure"} then Some(Failed)
    else if kind == "open" then Some(Opened)
    else if kind == "click" then Some(Clicked)
    else None
  }

  predicate AllCallbacks(ts: seq<Target>) {
    forall t | t in ts :: IsCallback(t)
  }

  function Applied(s: Status, t: Target): Status {
    if ShouldApplyProviderStatus(s, t) then t.value else s
  }

  function StatusAfter(s: Status, ts: seq<Target>): Status
    decreases |ts|
  {
    if ts == [] then s else StatusAfter(Applied(s, ts[0]), ts[1..])
  }

  // ---------------------------------------------------------------- monotone

  /** A height under which no callback ever moves an email down; `Failed` and
      `Delivered` are side by side because neither replaces the other. */
  function Height(s: Status): nat {
    match s
    case Queued => 0
    case Sending | Ambiguous => 1
    case Sent => 2
    case Failed | Delivered => 3
    case Opened => 4
    case Clicked => 5
    case Bounced => 6
    case Complained => 7
    case Cancelled => 8
  }

  lemma {:induction false} CallbacksOnlyClimb(s: Status, ts: seq<Target>)
    ensures Height(s) <= Height(StatusAfter(s, ts))
    ensures StatusAfter(s, ts) != s ==> Height(s) < Height(StatusAfter(s, ts))
    decreases |ts|
  {
    if ts != [] {
      CallbacksOnlyClimb(Applied(s, ts[0]), ts[1..]);
    }
  }

  // ------------------------------------------------------- repeated delivery

  lemma {:induction false} SpentStaysSpent(s: Status, t: Target, ts: seq<Target>)
    requires AllCallbacks(ts)
    requires !ShouldApplyProviderStatus(s, t)
    ensures !ShouldApplyProviderStatus(StatusAfter(s, ts), t)
    decreases |ts|
  {
    if ts != [] {
      assert ts[0] in ts;
      assert AllCallbacks(ts[1..]);
      SpentStaysSpent(Applied(s, ts[0]), t, ts[1..]);
    }
  }

  lemma {:induction false} StatusAfterAppend(s: Status, a: seq<Target>, b: seq<Target>)
    ensures StatusAfter(s, a + b) == StatusAfter(StatusAfter(s, a), b)
    decreases |a|
  {
    if a == [] {
      assert a + b == b;
    } else {
      assert (a + b)[1..] == a[1..] + b;
      StatusAfterAppend(Applied(s, a[0]), a[1..], b);
    }
  }

  /** A callback processed again, after any further callbacks, changes nothing. */
  lemma RedeliveryChangesNothing(s: Status, before: seq<Target>, t: Target, later: seq<Target>)
    requires AllCallbacks(later)
    ensures StatusAfter(s, before + [t] + later + [t]) == StatusAfter(s, before + [t] + later)
  {
    var done := StatusAfter(s, before + [t]);
    StatusAfterAppend(s, before, [t]);
    StatusAfterAppend(s, before + [t], later);
    StatusAfterAppend(s, before + [t] + later, [t]);
    assert done == Applied(StatusAfter(s, before), t);
    SpentStaysSpent(done, t, later);
  }

  lemma {:induction false} CancelledStaysCancelled(ts: seq<Target>)
    ensures StatusAfter(Cancelled, ts) == Cancelled
  {
    if ts != [] {
      CancelledStaysCancelled(ts[1..]);
    }
  }

  // ------------------------------------------------------------ closed form

  predicate Seen(x: Status, ts: seq<Target>) {
    Some(x) in ts
  }

  /** `r` is the furthest point of the chain sent, delivered, opened, clicked among
      the starting status and the callbacks. */
  ghost predicate IsFurthest(r: Status, s: Status, ts: seq<Target>) {
    && (r == s || Seen(r, ts))
    && ProviderStatusRank(s) <= ProviderStatusRank(r)
    && (ProviderStatusRank(s) == ProviderStatusRank(r) ==> r == s)
    && forall t | t in ts && t.Some? :: ProviderStatusRank(t.value) <= ProviderStatusRank(r)
  }

  predicate BeforeDelivered(s: Status) {
    ProviderStatusRank(s) < ProviderStatusRank(Delivered)
  }

  predicate PastDelivery(t: Target) {
    t.Some? && ProviderStatusRank(t.value) >= ProviderStatusRank(Delivered)
  }

  /** A failure callback arrives before any proof of delivery. */
  ghost predicate FailsFirst(ts: seq<Target>) {
    exists i | 0 <= i < |ts| :: ts[i] == Some(Failed) && forall j | 0 <= j < i :: !PastDelivery(ts[j])
  }

  predicate Settled(s: Status) {
    s in {Bounced, Complained, Failed, Cancelled}
  }

  ghost predicate IsFinal(r: Status, s: Status, ts: seq<Target>) {
    if s in {Cancelled, Complained} then r == s
    else if Seen(Complained, ts) then r == Complained
    else if s == Bounced || Seen(Bounced, ts) then r == Bounced
    else if s == Failed then r == Failed
    else if BeforeDelivered(s) && FailsFirst(ts) then r == Failed
    else IsFurthest(r, s, ts)
  }

  /** The result of any callback stream from any status, without recursion. */
  lemma {:induction false} FinalStatus(s: Status, ts: seq<Target>)
    requires AllCallbacks(ts)
    ensures IsFinal(StatusAfter(s, ts), s, ts)
    decreases |ts|
  {
    if ts != [] {
      var t, rest := ts[0], ts[1..];
      assert t in ts;
      assert forall x :: x in ts <==> x == t || x in rest;
      FinalStatus(Applied(s, t), rest);
      FailsFirstUnfolds(ts);
    }
  }

  lemma FailsFirstUnfolds(ts: seq<Target>)
    requires ts != []
    ensures FailsFirst(ts) <==> ts[0] == Some(Failed) || (!PastDelivery(ts[0]) && FailsFirst(ts[1..]))
  {
    var rest := ts[1..];
    if FailsFirst(ts) && ts[0] != Some(Failed) {
      var i :| 0 <= i < |ts| && ts[i] == Some(Failed) && forall j | 0 <= j < i :: !PastDelivery(ts[j]);
      assert rest[i - 1] == Some(Failed) && forall j | 0 <= j < i - 1 :: rest[j] == ts[j + 1];
    }
    if !PastDelivery(ts[0]) && FailsFirst(rest) {
      var i :| 0 <= i < |rest| && rest[i] == Some(Failed) && forall j | 0 <= j < i :: !PastDelivery(rest[j]);
      assert ts[i + 1] == Some(Failed);
      assert forall j | 0 <= j < i + 1 :: j == 0 || ts[j] == rest[j - 1];
    }
  }

  // ------------------------------------------------------ order independence

  ghost predicate SomePastDelivery(ts: seq<Target>) {
    exists t | t in ts :: PastDelivery(t)
  }

  /** The guard a caller could evaluate: the only race is a failure report against a
      proof of delivery, with nothing stronger to decide it. */
  ghost predicate OrderFree(s: Status, ts: seq<Target>) {
    || Settled(s) || !BeforeDelivered(s)
    || Seen(Complained, ts) || Seen(Bounced, ts)
    || !Seen(Failed, ts) || !SomePastDelivery(ts)
  }

  lemma SameMembers(a: seq<Target>, b: seq<Target>)
    requires multiset(a) == multiset(b)
    ensures forall t :: t in a <==> t in b
  {
    forall t ensures t in a <==> t in b {
      assert t in a <==> t in multiset(a);
      assert t in b <==> t in multiset(b);
    }
  }

  lemma FailsFirstByMembers(ts: seq<Target>)
    requires !Seen(Failed, ts) || !SomePastDelivery(ts)
    ensures FailsFirst(ts) <==> Seen(Failed, ts)
  {
    if Seen(Failed, ts) {
      var i :| 0 <= i < |ts| && ts[i] == Some(Failed);
      assert forall j | 0 <= j < i :: ts[j] in ts;
    }
  }

  lemma PermutedAlike(s: Status, a: seq<Target>, b: seq<Target>)
    requires AllCallbacks(a) && multiset(a) == multiset(b) && OrderFree(s, a)
    ensures StatusAfter(s, a) == StatusAfter(s, b)
  {
    SameMembers(a, b);
    FinalStatus(s, a);
    FinalStatus(s, b);
    if !Settled(s) && !Seen(Complained, a) && !Seen(Bounced, a) {
      if BeforeDelivered(s) {
        FailsFirstByMembers(a);
        FailsFirstByMembers(b);
      }
      RankedAlike(s, a, b);
    }
  }

  lemma RankedAlike(s: Status, a: seq<Target>, b: seq<Target>)
    requires AllCallbacks(a) && forall t :: t in a <==> t in b
    requires !Settled(s) && !Seen(Complained, a) && !Seen(Bounced, a)
    ensures forall r, q :: IsFurthest(r, s, a) && r != Failed && q != Failed && IsFurthest(q, s, b) ==> r == q
    ensures !Seen(Failed, a) ==> forall r :: IsFurthest(r, s, a) ==> r != Failed
    ensures !BeforeDelivered(s) ==> forall r :: IsFurthest(r, s, a) ==> r != Failed
  {
    forall r, q | IsFurthest(r, s, a) && r != Failed && q != Failed && IsFurthest(q, s, b)
      ensures r == q
    {
      if r != s { assert Some(r) in b; }
      if q != s { assert Some(q) in a; }
      assert ProviderStatusRank(r) == ProviderStatusRank(q);
    }
  }

  lemma SplitOut(ts: seq<Target>, t: Target) returns (rest: seq<Target>)
    requires t in ts
    ensures multiset([t] + rest) == multiset(ts)
  {
    var i :| 0 <= i < |ts| && ts[i] == t;
    rest := ts[..i] + ts[i + 1..];
    assert ts == ts[..i] + [t] + ts[i + 1..];
  }

  /** In the one race, the two orders really differ. */
  lemma RaceHasTwoOutcomes(s: Status, ts: seq<Target>) returns (early: seq<Target>, late: seq<Target>)
    requires AllCallbacks(ts) && !OrderFree(s, ts)
    ensures multiset(early) == multiset(late) == multiset(ts)
    ensures StatusAfter(s, early) == Failed && StatusAfter(s, late) != Failed
  {
    var good :| good in ts && PastDelivery(good);
    var a := SplitOut(ts, Some(Failed));
    var b := SplitOut(ts, good);
    early, late := [Some(Failed)] + a, [good] + b;
    SameMembers(early, ts);
    SameMembers(late, ts);
    assert FailsFirst(early) by { assert early[0] == Some(Failed); }
    FailsFirstUnfolds(late);
    FinalStatus(s, early);
    FinalStatus(s, late);
    assert good in late;
  }

  /** Exactly when the delivery order of the callbacks cannot matter. */
  lemma OrderIndependentIff(s: Status, ts: seq<Target>)
    requires AllCallbacks(ts)
    ensures OrderFree(s, ts) <==>
            forall other :: multiset(other) == multiset(ts) ==> StatusAfter(s, other) == StatusAfter(s, ts)
  {
    if OrderFree(s, ts) {
      forall other | multiset(other) == multiset(ts) ensures StatusAfter(s, other) == StatusAfter(s, ts) {
        PermutedAlike(s, ts, other);
      }
    } else {
      var early, late := RaceHasTwoOutcomes(s, ts);
    }
  }

  // ---------------------------------------------------------- kinds of callback

  function Targets(kinds: seq<string>): seq<Target> {
    seq(|kinds|, i requires 0 <= i < |kinds| => CallbackTarget(kinds[i]))
  }

  /** A failure is reported before anything proves that the message arrived. */
  ghost predicate FailureFirst(kinds: seq<string>) {
    exists i | 0 <= i < |kinds| :: kinds[i] in {"reject", "rendering_failure"} && NoProofBefore(kinds, i)
  }

  predicate NoProofBefore(kinds: seq<string>, i: int)
    requires i <= |kinds|
  {
    forall j | 0 <= j < i :: kinds[j] !in {"delivery", "open", "click"}
  }

  /** Where an email ends that was at `s`, by the kinds of callback that came in. */
  ghost function Ending(s: Status, kinds: seq<string>): Status {
    if s == Cancelled then Cancelled
    else if s == Complained || "complaint" in kinds then Complained
    else if s == Bounced || "bounce" in kinds then Bounced
    else if s == Failed then Failed
    else if s in {Queued, Sending, Ambiguous, Sent} && FailureFirst(kinds) then Failed
    else if s == Clicked || "click" in kinds then Clicked
    else if s == Opened || "open" in kinds then Opened
    else if s == Delivered || "delivery" in kinds then Delivered
    else if s == Sent || "send" in kinds then Sent
    else s
  }

  lemma KindIsSeen(kinds: seq<string>, kind: string, x: Status)
    requires forall k :: CallbackTarget(k) == Some(x) <==> k == kind
    ensures Seen(x, Targets(kinds)) <==> kind in kinds
  {
    var ts := Targets(kinds);
    if Seen(x, ts) {
      var i :| 0 <= i < |ts| && ts[i] == Some(x);
      assert kinds[i] == kind;
    }
    if kind in kinds {
      var i :| 0 <= i < |kinds| && kinds[i] == kind;
      assert ts[i] == Some(x);
    }
  }

  lemma FailureIsFirst(kinds: seq<string>)
    ensures FailsFirst(Targets(kinds)) <==> FailureFirst(kinds)
  {
    var ts := Targets(kinds);
    if FailsFirst(ts) {
      var i :| 0 <= i < |ts| && ts[i] == Some(Failed) && forall j | 0 <= j < i :: !PastDelivery(ts[j]);
      assert forall j | 0 <= j < i :: kinds[j] in {"delivery", "open", "click"} ==> PastDelivery(ts[j]);
      assert NoProofBefore(kinds, i);
    }
    if FailureFirst(kinds) {
      var i :| 0 <= i < |kinds| && kinds[i] in {"reject", "rendering_failure"} && NoProofBefore(kinds, i);
      assert forall j | 0 <= j < i :: PastDelivery(ts[j]) ==> kinds[j] in {"delivery", "open", "click"};
      assert ts[i] == Some(Failed);
    }
  }

  /** The furthest point, spelled out. */
  lemma FurthestIs(r: Status, s: Status, ts: seq<Target>)
    requires AllCallbacks(ts) && IsFurthest(r, s, ts) && !Settled(s)
    requires !Seen(Complained, ts) && !Seen(Bounced, ts)
    requires Seen(Failed, ts) && BeforeDelivered(s) ==> SomePastDelivery(ts)
    ensures r == if s == Clicked || Seen(Clicked, ts) then Clicked
                 else if s == Opened || Seen(Opened, ts) then Opened
                 else if s == Delivered || Seen(Delivered, ts) then Delivered
                 else if s == Sent || Seen(Sent, ts) then Sent
                 else s
  {
    forall x | Seen(x, ts) ensures ProviderStatusRank(x) <= ProviderStatusRank(r) {
      assert Some(x) in ts && Some(x).Some?;
    }
    if SomePastDelivery(ts) {
      var t :| t in ts && PastDelivery(t);
      assert Seen(t.value, ts);
    }
    if r != s { assert IsCallback(Some(r)); }
  }

  /** A failure that is not first comes after a proof. */
  lemma FailureAfterProof(ts: seq<Target>)
    requires Seen(Failed, ts) && !FailsFirst(ts)
    ensures SomePastDelivery(ts)
  {
    if !SomePastDelivery(ts) { FailsFirstByMembers(ts); }
  }

  lemma KindsAreSeen(kinds: seq<string>)
    ensures var ts := Targets(kinds);
            && AllCallbacks(ts) && (Seen(Complained, ts) <==> "complaint" in kinds)
            && (Seen(Bounced, ts) <==> "bounce" in kinds) && (Seen(Clicked, ts) <==> "click" in kinds)
            && (Seen(Opened, ts) <==> "open" in kinds) && (Seen(Delivered, ts) <==> "delivery" in kinds)
            && (Seen(Sent, ts) <==> "send" in kinds)
  {
    KindIsSeen(kinds, "complaint", Complained);
    KindIsSeen(kinds, "bounce", Bounced);
    KindIsSeen(kinds, "click", Clicked);
    KindIsSeen(kinds, "open", Opened);
    KindIsSeen(kinds, "delivery", Delivered);
    KindIsSeen(kinds, "send", Sent);
  }

  /** The ending is the same whatever else came in, and however often. */
  lemma KindsDecideTheEnding(s: Status, kinds: seq<string>)
    ensures StatusAfter(s, Targets(kinds)) == Ending(s, kinds)
  {
    KindsAreSeen(kinds);
    FailureIsFirst(kinds);
    var ts := Targets(kinds);
    var r := StatusAfter(s, ts);
    FinalStatus(s, ts);
    if Settled(s) || Seen(Complained, ts) || Seen(Bounced, ts) || (BeforeDelivered(s) && FailsFirst(ts)) { return; }
    assert IsFurthest(r, s, ts);
    if Seen(Failed, ts) && BeforeDelivered(s) { FailureAfterProof(ts); }
    FurthestIs(r, s, ts);
  }
}
