/** Purging expired inbound messages (internal/service/retention_service.go:100-134,
    internal/repository/inbound_repo.go:129-164). The raw object of a message lives in an
    object store and must go before its row does. */
module Retention {
  import opened Common

  const BatchSize := 500

  /** `key` is the trimmed raw object key; empty means the message has none. */
  datatype Message = Message(created: int, key: string)

  type Table = map<nat, Message>

  function ExpiredIds(rows: Table, before: int): set<nat> {
    set id | id in rows && rows[id].created < before
  }

  class InboundStore {
    var rows: Table
    var deletedObjects: set<string>

    constructor ()
      ensures rows == map[] && deletedObjects == {}
    {
      rows, deletedObjects := map[], {};
    }

    method ListExpired(before: int, limit: nat) returns (ids: seq<nat>)
      ensures IsListing(rows, before, limit, ids)
    {
      ids := [];
      var rest := ExpiredIds(rows, before);
      while rest != {} && |ids| < limit
        invariant |ids| <= limit
        invariant forall id :: id in rest <==> id in ExpiredIds(rows, before) && id !in ids
        invariant forall i | 0 <= i < |ids| :: ids[i] in ExpiredIds(rows, before)
        invariant forall i, j | 0 <= i < j < |ids| :: ids[i] != ids[j] && rows[ids[i]].created <= rows[ids[j]].created
        invariant forall i, x | 0 <= i < |ids| && x in rest :: rows[ids[i]].created <= rows[x].created
        decreases |rest|
      {
        OldestExists(rest, rows);
        var id :| id in rest && forall y | y in rest :: rows[id].created <= rows[y].created;
        rest := rest - {id};
        ids := ids + [id];
      }
    }

    method DeleteExpired(id: nat, before: int) returns (removed: bool)
      modifies this`rows
      ensures removed == (id in ExpiredIds(old(rows), before))
      ensures rows == if removed then old(rows) - {id} else old(rows)
    {
      removed := id in rows && rows[id].created < before;
      if removed { rows := rows - {id}; }
    }

    /** One listed batch: for each message the object first, then the row. */
    method PurgeBatch(items: seq<nat>, before: int, configured: bool, objectFails: set<nat>, rowFails: set<nat>)
      returns (deleted: nat, ok: bool)
      requires forall i | 0 <= i < |items| :: items[i] in ExpiredIds(rows, before)
      requires forall i, j | 0 <= i < j < |items| :: items[i] != items[j]
      modifies this
      ensures OnlyPurged(old(rows), rows, before, deletedObjects) && old(deletedObjects) <= deletedObjects
      ensures deleted == |old(rows)| - |rows|
      ensures ok ==> forall i | 0 <= i < |items| :: items[i] !in rows
      ensures !ok ==> exists id :: Stuck(rows, id, before, configured, objectFails, rowFails)
    {
      deleted := 0;
      var i := 0;
      while i < |items|
        invariant 0 <= i <= |items|
        invariant OnlyPurged(old(rows), rows, before, deletedObjects) && old(deletedObjects) <= deletedObjects
        invariant forall j | 0 <= j < i :: items[j] !in rows
        invariant forall j | i <= j < |items| :: items[j] in ExpiredIds(rows, before)
        invariant deleted == |old(rows)| - |rows|
      {
        var id := items[i];
        var key := rows[id].key;
        if key != "" {
          if !configured || id in objectFails {
            assert Stuck(rows, id, before, configured, objectFails, rowFails);
            return deleted, false;
          }
          deletedObjects := deletedObjects + {key};
        }
        if id in rowFails {
          assert Stuck(rows, id, before, configured, objectFails, rowFails);
          return deleted, false;
        }
        ghost var was := rows;
        var removed := DeleteExpired(id, before);
        RemoveOne(was, id);
        if removed { deleted := deleted + 1; }
        i := i + 1;
      }
      ok := true;
    }

    /** `objectFails` and `rowFails` are the messages whose object or row cannot be deleted;
        `listFails` the rounds whose listing fails, and `configured` tells whether an object
        store is set up. */
    method PurgeInbound(before: int, configured: bool, objectFails: set<nat>, rowFails: set<nat>,
        listFails: nat -> bool)
      returns (deleted: nat, ok: bool)
      modifies this
      // on every exit only expired rows are gone, each after its raw object, and the count is exact
      ensures OnlyPurged(old(rows), rows, before, deletedObjects)
      ensures deleted == |old(rows)| - |rows|
      // success means that nothing expired is left, failure that a listing failed or some message
      // cannot be purged
      ensures ok ==> ExpiredIds(rows, before) == {}
      ensures !ok ==> (exists n: nat :: listFails(n)) || exists id ::
          Stuck(rows, id, before, configured, objectFails, rowFails)
    {
      deleted := 0;
      var round := 0;
      while true
        invariant OnlyPurged(old(rows), rows, before, deletedObjects) && old(deletedObjects) <= deletedObjects
        invariant deleted == |old(rows)| - |rows|
        invariant 0 <= round
        decreases |ExpiredIds(rows, before)|
      {
        ghost var was, gone := rows, deletedObjects;
        if listFails(round) { return deleted, false; }
        round := round + 1;
        var items := ListExpired(before, BatchSize);
        if |items| == 0 { return deleted, true; }
        var n, fine := PurgeBatch(items, before, configured, objectFails, rowFails);
        deleted := deleted + n;
        PurgedTwice(old(rows), was, rows, before, gone, deletedObjects);
        if !fine { return deleted, false; }
        FewerExpired(was, rows, before, items[0]);
        if |items| < BatchSize {
          assert forall id | id in ExpiredIds(rows, before) :: id in ExpiredIds(was, before) && id in items;
          return deleted, true;
        }
      }
    }
  }

  /** At most `limit` expired rows, oldest first; fewer only if there are no more. */
  ghost predicate IsListing(rows: Table, before: int, limit: nat, ids: seq<nat>) {
    && |ids| <= limit
    && (forall i | 0 <= i < |ids| :: ids[i] in ExpiredIds(rows, before))
    && (forall i, j | 0 <= i < j < |ids| :: ids[i] != ids[j] && rows[ids[i]].created <= rows[ids[j]].created)
    && (|ids| < limit ==> forall id | id in ExpiredIds(rows, before) :: id in ids)
    && (forall i, x | 0 <= i < |ids| && x in ExpiredIds(rows, before) && x !in ids ::
          rows[ids[i]].created <= rows[x].created)
  }

  /** Only expired rows are missing, and none whose raw object was not deleted. */
  ghost predicate OnlyPurged(was: Table, now: Table, before: int, gone: set<string>) {
    && now.Keys <= was.Keys && (forall id | id in now :: now[id] == was[id])
    && (forall id | id in was && id !in now :: was[id].created < before && (was[id].key != "" ==> was[id].key in gone))
  }

  predicate Stuck(rows: Table, id: nat, before: int, configured: bool, objectFails: set<nat>, rowFails: set<nat>) {
    && id in ExpiredIds(rows, before)
    && (id in rowFails || (rows[id].key != "" && (!configured || id in objectFails)))
  }

  lemma RemoveOne(rows: Table, id: nat)
    requires id in rows
    ensures |rows - {id}| == |rows| - 1 && (rows - {id}).Keys == rows.Keys - {id}
  {
    assert (rows - {id}).Keys == rows.Keys - {id};
  }

  lemma PurgedTwice(a: Table, b: Table, c: Table, before: int, gone1: set<string>, gone2: set<string>)
    requires OnlyPurged(a, b, before, gone1) && OnlyPurged(b, c, before, gone2) && gone1 <= gone2
    ensures OnlyPurged(a, c, before, gone2)
  {}

  lemma FewerExpired(a: Table, b: Table, before: int, id: nat)
    requires b.Keys <= a.Keys && (forall x | x in b :: b[x] == a[x])
    requires id in ExpiredIds(a, before) && id !in b
    ensures |ExpiredIds(b, before)| < |ExpiredIds(a, before)|
  {
    assert ExpiredIds(b, before) <= ExpiredIds(a, before) - {id};
    Smaller(ExpiredIds(b, before), ExpiredIds(a, before) - {id});
  }

  lemma {:induction false} Smaller(a: set<nat>, b: set<nat>)
    requires a <= b
    ensures |a| <= |b|
    decreases |a|
  {
    if a != {} {
      var x :| x in a;
      Smaller(a - {x}, b - {x});
    }
  }

  lemma OldestExists(ids: set<nat>, rows: Table)
    requires ids != {} && ids <= rows.Keys
    ensures exists id :: id in ids && forall y | y in ids :: rows[id].created <= rows[y].created
  {
    var age := map id | id in rows :: rows[id].created;
    LeastExists(ids, age);
    var id :| id in ids && forall y | y in ids :: age[id] <= age[y];
    assert forall y | y in ids :: rows[id].created <= rows[y].created;
  }
}
