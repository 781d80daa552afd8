/** The loop that persists a provider acceptance: up to three local transactions, each of
    which may fail before or after its commit, then one fallback to review
    (internal/service/email_service.go:657-696). */
module Acceptance {
  import opened EmailDomain
  import opened EmailRows
  import SP = SendProtocol

  datatype Fault = Commits | FailsBefore | FailsAfter

  predicate Distinct(log: seq<SP.EventId>) {
    forall i, j | 0 <= i < j < |log| :: log[i] != log[j]
  }

  /** The run holds the row and the send has started. */
  predicate InSend(r: Row, c: Claim) {
    Owns(r, c) && r.status == Sending && r.state == SendStarted
  }

  predicate LeaseStands(r: Row, now: int) {
    r.lease.Some? && r.lease.value >= now
  }

  /** Some try committed while the lease of the row still stood. */
  predicate Landed(r: Row, faults: seq<Fault>, times: seq<int>, tries: nat)
    requires tries <= |faults| && tries <= |times|
  {
    exists k | 0 <= k < tries :: faults[k] != FailsBefore && LeaseStands(r, times[k])
  }

  /** Some try committed and said so, and the row was accepted by it or before it. */
  predicate Confirmed(r: Row, faults: seq<Fault>, times: seq<int>, tries: nat)
    requires tries <= |faults| && tries <= |times|
  {
    exists k | 0 <= k < tries :: faults[k] == Commits && Landed(r, faults, times, k + 1)
  }

  predicate NonDecreasing(times: seq<int>) {
    forall i, j | 0 <= i < j < |times| :: times[i] <= times[j]
  }

  class Ledger {
    var row: Row
    var events: seq<SP.EventId>
    var outbox: seq<SP.EventId>

    constructor (r: Row)
      ensures row == r && events == [] && outbox == []
    {
      row, events, outbox := r, [], [];
    }

    /** One transaction: the guarded UPDATE and both ON CONFLICT DO NOTHING inserts commit
        together or not at all. */
    method Transact(q: Stmt, now: int, fault: Fault) returns (ok: bool, err: bool)
      modifies this
      ensures err == (fault != Commits) && ok == (fault == Commits && Guard(old(row), q, now))
      ensures fault == FailsBefore || !Guard(old(row), q, now) ==>
                row == old(row) && events == old(events) && outbox == old(outbox)
      ensures fault != FailsBefore && Guard(old(row), q, now) ==>
                && row == Effect(old(row), q, now)
                && events == SP.InsertNew(old(events), SP.EventFor(q, 0))
                && outbox == SP.InsertNew(old(outbox), SP.EventFor(q, 0))
    {
      err := fault != Commits;
      ok := false;
      if fault != FailsBefore && Guard(row, q, now) {
        row := Effect(row, q, now);
        var e := SP.EventFor(q, 0);
        if e.Some? && e.value !in events { events := events + [e.value]; }
        if e.Some? && e.value !in outbox { outbox := outbox + [e.value]; }
        ok := fault == Commits;
      }
    }

    /** `tries` is how many of the three tries the persistence deadline leaves time for, `times`
        when each of them, and at last the fallback, takes effect. */
    method PersistAcceptance(c: Claim, pid: string, times: seq<int>, faults: seq<Fault>, tries: nat, fallback: Fault)
      returns (persisted: bool)
      requires |faults| == 3 && 1 <= tries <= 3 && |times| == 4 && NonDecreasing(times)
      requires Distinct(events) && events == outbox
      requires SP.SentEvent(c) !in events && SP.AmbiguousEvent(c) !in events
      modifies this
      ensures Distinct(events) && events == outbox
      // nothing to persist: the pair lost the row, and the run leaves no trace
      ensures !Owns(old(row), c) ==> row == old(row) && events == old(events) && !persisted
      // some commit took effect in time: accepted with its receipt, one event, and no fallback
      ensures InSend(old(row), c) && Landed(old(row), faults, times, tries) ==>
                && row == old(row).(status := Sent, state := Accepted, lease := None, sendingAt := None,
                                    recovery := false, providerId := Some(pid))
                && events == old(events) + [SP.SentEvent(c)]
                && (persisted <==> Confirmed(old(row), faults, times, tries))
      // no commit took effect before the lease was over: the fallback alone decides
      ensures InSend(old(row), c) && !Landed(old(row), faults, times, tries) ==>
                && !persisted
                && row == (if fallback == FailsBefore then old(row)
                           else old(row).(status := Ambiguous, state := Unresolved, fence := None, lease := None,
                                          sendingAt := None, recovery := false))
                && events == old(events) + if fallback == FailsBefore then [] else [SP.AmbiguousEvent(c)]
    {
      persisted := false;
      var t, stop := 0, false;
      while t < tries && !stop && !persisted
        invariant t <= tries && Distinct(events) && events == outbox
        invariant !Owns(old(row), c) ==> row == old(row) && events == old(events) && !persisted
        invariant InSend(old(row), c) && !Landed(old(row), faults, times, t) ==>
                    && row == old(row) && events == old(events) && !persisted
                    && (stop ==> !Landed(old(row), faults, times, tries))
        invariant InSend(old(row), c) && Landed(old(row), faults, times, t) ==>
                    && row == Effect(old(row), FinalizeAccepted(c, pid, 0), 0)
                    && events == old(events) + [SP.SentEvent(c)] && !stop
        invariant InSend(old(row), c) ==> (persisted <==> Confirmed(old(row), faults, times, t))
        decreases tries - t, !stop
      {
        var ok, err := Transact(FinalizeAccepted(c, pid, t), times[t], faults[t]);
        assert Landed(old(row), faults, times, t + 1) <==>
               Landed(old(row), faults, times, t) || (faults[t] != FailsBefore && LeaseStands(old(row), times[t]));
        assert Confirmed(old(row), faults, times, t + 1) <==>
               || Confirmed(old(row), faults, times, t)
               || (faults[t] == Commits && Landed(old(row), faults, times, t + 1));
        persisted := ok;
        stop := !err && !ok;
        t := t + 1;
      }
      if !persisted {
        var ok, err := Transact(FinalizeAmbiguous(c, 0), times[3], fallback);
      } else {
        assert Landed(old(row), faults, times, t) ==> Landed(old(row), faults, times, tries);
      }
    }
  }
}
