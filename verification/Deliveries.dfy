/** How often a webhook delivery is tried, over every run of the pipeline
    (internal/repository/webhook_delivery_repo.go). */
module Deliveries {
  import opened EmailDomain
  import opened Pipeline

  /** A worker takes the delivery: it waits, is due and has its payload, and its webhook is active. */
  predicate Tried(p: P, s: Step, k: Key) {
    && s == ClaimsDelivery(k) && k in p.deliveries && k.0 in p.webhooks && p.webhooks[k.0].active
    && p.deliveries[k].status == Waiting && p.deliveries[k].hasPayload && p.deliveries[k].nextAt <= p.now
  }

  /** A member of the team that owns the active webhook reopens a delivery that was given up. */
  predicate Reopened(p: P, s: Step, k: Key) {
    && s.ReplaysFailed? && s.k == k && k in p.deliveries && k.0 in p.webhooks && p.webhooks[k.0].team == s.team
    && p.webhooks[k.0].active && p.deliveries[k].status == GaveUp && p.deliveries[k].hasPayload
  }

  /** The tries of a delivery among the first `n` steps, since it was last reopened. */
  ghost function Tries(ps: seq<P>, ss: seq<Step>, n: nat, k: Key): nat
    requires n <= |ss| < |ps|
  {
    if n == 0 || Reopened(ps[n - 1], ss[n - 1], k) then 0
    else Tries(ps, ss, n - 1, k) + if Tried(ps[n - 1], ss[n - 1], k) then 1 else 0
  }

  predicate Counts(p: P, k: Key, n: nat) {
    if k in p.deliveries then p.deliveries[k].attempts == n else n == 0
  }

  lemma StepCounts(p: P, s: Step, k: Key, n: nat)
    requires Enabled(p, s) && Counts(p, k, n)
    ensures Counts(Apply(p, s), k, if Reopened(p, s, k) then 0 else n + if Tried(p, s, k) then 1 else 0)
  {}

  lemma {:induction false} AttemptsCountTries(ps: seq<P>, ss: seq<Step>, n: nat, k: Key)
    requires IsTrace(ps, ss) && n < |ps|
    ensures Counts(ps[n], k, Tries(ps, ss, n, k))
  {
    if n > 0 {
      AttemptsCountTries(ps, ss, n - 1, k);
      StepCounts(ps[n - 1], ss[n - 1], k, Tries(ps, ss, n - 1, k));
    }
  }

  /** A failed try under way is the last one if it is the fifth or a later one; before that the
      delivery waits until the time of its retry. Nothing else changes. */
  lemma FailureRetriesOrGivesUp(ps: seq<P>, ss: seq<Step>, n: nat, k: Key, at: int)
    requires IsTrace(ps, ss) && n < |ss| && ss[n] == MarksFailed(k, at)
    requires k in ps[n].deliveries && ps[n].deliveries[k].status == InFlight
    ensures var tries := Tries(ps, ss, n, k);
            && tries == Tries(ps, ss, n + 1, k)
            && ps[n + 1] == ps[n].(deliveries := ps[n + 1].deliveries)
            && ps[n + 1].deliveries == ps[n].deliveries[k := ps[n].deliveries[k].(
                                                               status := if tries >= 5 then GaveUp else Waiting,
                                                               nextAt := at, lease := None)]
  {
    AttemptsCountTries(ps, ss, n, k);
  }

  /** A delivery is given up only by its fifth or a later try, or by the loss of its payload. */
  lemma GivenUpOnlySo(ps: seq<P>, ss: seq<Step>, n: nat, k: Key)
    requires IsTrace(ps, ss) && n < |ss| && k in ps[n + 1].deliveries && ps[n + 1].deliveries[k].status == GaveUp
    requires k !in ps[n].deliveries || ps[n].deliveries[k].status != GaveUp
    ensures (ss[n].MarksFailed? && ss[n].k == k && Tries(ps, ss, n, k) >= 5)
            || (ss[n].Purges? && !ps[n + 1].deliveries[k].hasPayload)
  {
    AttemptsCountTries(ps, ss, n, k);
    GivesUpOnlySo(ps[n], ss[n], k);
  }

  lemma GivesUpOnlySo(p: P, s: Step, k: Key)
    requires Enabled(p, s) && k in Apply(p, s).deliveries && Apply(p, s).deliveries[k].status == GaveUp
    requires k !in p.deliveries || p.deliveries[k].status != GaveUp
    ensures (s.MarksFailed? && s.k == k && k in p.deliveries && p.deliveries[k].attempts >= 5)
            || (s.Purges? && !Apply(p, s).deliveries[k].hasPayload)
  {}
}
