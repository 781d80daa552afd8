/** The daily recipient counters (internal/queue/usage.go). Times are seconds. */
module Usage {
  import opened Common

  const Day := 86400

  /** A counter is keyed by team and UTC day. */
  type Key = (nat, int)

  function KeyAt(team: nat, at: int): Key {
    (team, at / Day)
  }

  function Used(counters: map<Key, int>, k: Key): int {
    if k in counters then counters[k] else 0
  }

  function Reserve(counters: map<Key, int>, team: nat, units: int, limit: int, now: int): (map<Key, int>, bool) {
    if units <= 0 || limit <= 0 then (counters, true)
    else
      var k := KeyAt(team, now);
      var current := Used(counters, k) + units;
      if current > limit then (counters[k := current - units], false) else (counters[k := current], true)
  }

  function Release(counters: map<Key, int>, team: nat, units: int, reservedAt: int): map<Key, int> {
    var k := KeyAt(team, reservedAt);
    if units <= 0 || k !in counters then counters else counters[k := Max(0, counters[k] - units)]
  }

  class UsageLimiter {
    var counters: map<Key, int>

    constructor ()
      ensures counters == map[]
    {
      counters := map[];
    }

    method ReserveUnits(team: nat, units: int, limit: int, now: int) returns (allowed: bool)
      modifies this
      ensures (counters, allowed) == Reserve(old(counters), team, units, limit, now)
      // counted on the UTC day of the call, and refused if the day's total would pass the limit
      ensures units <= 0 || limit <= 0 ==> allowed && counters == old(counters)
      ensures units > 0 && limit > 0 ==>
                var day := (team, now / 86400);
                var used := if day in old(counters) then old(counters)[day] else 0;
                && (allowed <==> used + units <= limit)
                && counters == old(counters)[day := if allowed then used + units else used]
    {
      if units <= 0 || limit <= 0 { return true; }
      var k := KeyAt(team, now);
      var current := units;
      if k in counters { current := counters[k] + units; }
      counters := counters[k := current];
      allowed := current <= limit;
      if !allowed {
        counters := counters[k := current - units];
        assert counters == old(counters)[k := current - units];
      }
    }

    method ReleaseUnits(team: nat, units: int, reservedAt: int)
      modifies this
      ensures counters == Release(old(counters), team, units, reservedAt)
      ensures var day := (team, reservedAt / 86400);
              counters == if units <= 0 || day !in old(counters) then old(counters)
                          else if old(counters)[day] <= units then old(counters)[day := 0]
                          else old(counters)[day := old(counters)[day] - units]
    {
      if units <= 0 { return; }
      var k := KeyAt(team, reservedAt);
      if k in counters { counters := counters[k := Max(0, counters[k] - units)]; }
    }
  }

  /** `send` remembers the time before it reserves and releases with that time. The release
      undoes the reservation exactly if both fall on the same UTC day. */
  lemma ReleaseUndoesReserveIff(counters: map<Key, int>, team: nat, units: int, limit: int, now: int, remembered: int)
    requires units > 0 && limit > 0 && forall k | k in counters :: counters[k] >= 0
    requires Reserve(counters, team, units, limit, now).1
    ensures var after := Release(Reserve(counters, team, units, limit, now).0, team, units, remembered);
            (forall k :: Used(after, k) == Used(counters, k)) <==> now / Day == remembered / Day
  {
    var taken := Reserve(counters, team, units, limit, now).0;
    var after := Release(taken, team, units, remembered);
    var k := KeyAt(team, now);
    if now / Day != remembered / Day {
      assert KeyAt(team, remembered) != k;
      assert Used(after, k) == Used(counters, k) + units;
    }
  }

  /** A refused reservation costs nothing. */
  lemma RefusalNetsZero(counters: map<Key, int>, team: nat, units: int, limit: int, now: int, k: Key)
    requires !Reserve(counters, team, units, limit, now).1
    ensures Used(Reserve(counters, team, units, limit, now).0, k) == Used(counters, k)
  {}
}
