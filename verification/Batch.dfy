/** Batch sends: one manifest per batch key and one derived idempotency key per item
    (internal/service/email_service.go:1080-1125, internal/repository/batch_repo.go). */
module Batch {
  import opened EmailDomain
  import Sending

  /** Keys are strings of bytes, one character each, so lengths are lengths in bytes. */
  type Byte = c: char | c as int < 256

  type Bytes = seq<Byte>

  const MaxKey := 255
  const MaxItems := 100

  function Digit(n: nat): Byte
    requires n < 10
  {
    '0' + n as char
  }

  function Decimal(n: nat): Bytes {
    if n < 10 then [Digit(n)] else Decimal(n / 10) + [Digit(n % 10)]
  }

  function RawKey(batch: Bytes, index: nat): Bytes {
    batch + [':'] + Decimal(index)
  }

  const HashPrefix: Bytes := "batch:"

  /** `sha` stands for the hexadecimal SHA-256 of a string. */
  function ItemKey(batch: Bytes, index: nat, sha: Bytes -> Bytes): Bytes {
    var key := RawKey(batch, index);
    if |key| <= MaxKey then key else HashPrefix + sha(key)
  }

  lemma {:induction false} DecimalHasNoColon(n: nat)
    ensures ':' !in Decimal(n) && |Decimal(n)| > 0
  {
    if n >= 10 {
      DecimalHasNoColon(n / 10);
    }
  }

  lemma {:induction false} DecimalIsInjective(a: nat, b: nat)
    requires Decimal(a) == Decimal(b)
    ensures a == b
  {
    var x, y := Decimal(a), Decimal(b);
    DecimalLength(a);
    DecimalLength(b);
    assert x[|x| - 1] == Digit(a % 10) && y[|y| - 1] == Digit(b % 10);
    if a >= 10 {
      assert x[..|x| - 1] == Decimal(a / 10);
      assert y[..|y| - 1] == Decimal(b / 10);
      DecimalIsInjective(a / 10, b / 10);
    }
  }

  lemma {:induction false} DecimalLength(n: nat)
    ensures |Decimal(n)| >= 1 && (n >= 10 <==> |Decimal(n)| >= 2) && (n < 100 ==> |Decimal(n)| <= 2)
  {
    if n >= 10 {
      DecimalLength(n / 10);
    }
  }

  /** The last colon splits a key in only one way. */
  lemma LastColonSplits(a: Bytes, x: Bytes, b: Bytes, y: Bytes)
    requires ':' !in x && ':' !in y && a + [':'] + x == b + [':'] + y
    ensures a == b && x == y
  {
    var k := a + [':'] + x;
    assert k[|a|] == ':' && k[|b|] == ':';
    assert forall j | |a| < j < |k| :: k[j] == x[j - |a| - 1] && k[j] != ':';
    assert forall j | |b| < j < |k| :: k[j] == y[j - |b| - 1] && k[j] != ':';
    assert a == k[..|a|] && b == k[..|b|];
    assert x == k[|a| + 1..] && y == k[|b| + 1..];
  }

  /** Different items never share a key, whether or not the keys are hashed, as long as the
      hash does not collide on the two raw keys. */
  lemma ItemKeysAreDistinct(b1: Bytes, i1: nat, b2: Bytes, i2: nat, sha: Bytes -> Bytes)
    requires i1 < MaxItems && i2 < MaxItems
    requires forall s: Bytes :: |sha(s)| == 64 && ':' !in sha(s)
    requires sha(RawKey(b1, i1)) == sha(RawKey(b2, i2)) ==> RawKey(b1, i1) == RawKey(b2, i2)
    requires ItemKey(b1, i1, sha) == ItemKey(b2, i2, sha)
    ensures b1 == b2 && i1 == i2
  {
    var r1, r2 := RawKey(b1, i1), RawKey(b2, i2);
    DecimalHasNoColon(i1);
    DecimalHasNoColon(i2);
    assert HashPrefix == "batch" + [':'];
    if |r1| <= MaxKey < |r2| { ShortIsNotHashed(b1, i1, sha(r2)); }
    if |r2| <= MaxKey < |r1| { ShortIsNotHashed(b2, i2, sha(r1)); }
    if |r1| > MaxKey && |r2| > MaxKey {
      assert sha(r1) == (HashPrefix + sha(r1))[6..];
      assert sha(r2) == (HashPrefix + sha(r2))[6..];
    }
    assert r1 == r2;
    LastColonSplits(b1, Decimal(i1), b2, Decimal(i2));
    DecimalIsInjective(i1, i2);
  }

  lemma ShortIsNotHashed(batch: Bytes, index: nat, digest: Bytes)
    requires index < MaxItems && |digest| == 64 && ':' !in digest
    ensures RawKey(batch, index) != HashPrefix + digest
  {
    DecimalHasNoColon(index);
    DecimalLength(index);
    if RawKey(batch, index) == HashPrefix + digest {
      LastColonSplits(batch, Decimal(index), "batch", digest);
    }
  }

  lemma ItemKeysFit(batch: Bytes, index: nat, sha: Bytes -> Bytes)
    requires |sha(RawKey(batch, index))| == 64
    ensures |ItemKey(batch, index, sha)| <= MaxKey
  {}

  // ------------------------------------------------------------------- batches

  /** Keys are already trimmed. */
  predicate BadKey(key: Bytes) {
    key == "" || |key| > MaxKey || '\r' in key || '\n' in key
  }

  datatype Refusal = NotRefused | BeforeLookup | AfterLookup

  datatype Outcome = AllSent(ids: seq<nat>) | Stopped(ids: seq<nat>) | Rejected

  /** The first row under the key is the `k`th. */
  predicate Holds(rows: seq<Sending.Row>, k: int, key: string) {
    0 <= k < |rows| && rows[k].key == Some(key) && forall j | 0 <= j < k :: rows[j].key != Some(key)
  }

  predicate Clashes(rows: seq<Sending.Row>, key: string, hash: string) {
    exists k | 0 <= k < |rows| :: Holds(rows, k, key) && rows[k].hash != hash
  }

  lemma {:induction false} FindHolds(rows: seq<Sending.Row>, key: string)
    ensures Sending.Find(rows, Some(key)).Some? <==> exists k :: Holds(rows, k, key)
    ensures forall k | Holds(rows, k, key) :: Sending.Find(rows, Some(key)) == Some(rows[k])
  {
    if rows != [] {
      var rest := rows[1..];
      FindHolds(rest, key);
      if rows[0].key == Some(key) {
        assert Holds(rows, 0, key);
      } else {
        forall k | Holds(rows, k, key) ensures Holds(rest, k - 1, key) {
          assert rows[k] == rest[k - 1];
          assert forall j | 0 <= j < k - 1 :: rest[j] == rows[j + 1];
        }
        forall k | Holds(rest, k, key) ensures Holds(rows, k + 1, key) {
          assert rows[k + 1] == rest[k];
          assert forall j | 0 < j < k + 1 :: rows[j] == rest[j - 1];
        }
      }
    }
  }

  /** The rows of one team and its batch manifest. */
  class Mailbox {
    var rows: seq<Sending.Row>
    var manifest: map<string, string>

    constructor ()
      ensures rows == [] && manifest == map[]
    {
      rows, manifest := [], map[];
    }

    /** `Ensure`: true unless the key was used with another request. */
    method EnsureBatch(key: string, hash: string) returns (ok: bool)
      modifies this`manifest
      ensures ok == (key in old(manifest) ==> old(manifest)[key] == hash)
      ensures manifest == if key in old(manifest) then old(manifest) else old(manifest)[key := hash]
    {
      ok := true;
      if key in manifest { ok := manifest[key] == hash; } else { manifest := manifest[key := hash]; }
    }

    /** One item, run to its end; it may be refused by a check or failure before or after the
        key is looked up. */
    method SendOne(key: string, hash: string, id: nat, refusal: Refusal) returns (answer: Option<nat>)
      modifies this`rows
      ensures old(rows) <= rows
      ensures answer.Some? ==> !refusal.BeforeLookup?
      ensures answer.None? ==> refusal != NotRefused || Clashes(rows, key, hash)
      ensures answer.Some? ==>
                Sending.Find(rows, Some(key)) == Some(Sending.Row(answer.value, Some(key), hash))
      ensures Sending.Find(old(rows), Some(key)).Some? ==> rows == old(rows)
      // a known key answers with its row if the request is the same, and a fresh one with a new row
      ensures refusal.BeforeLookup? ==> answer.None? && rows == old(rows)
      ensures forall k | Holds(old(rows), k, key) && !refusal.BeforeLookup? ::
                answer == if old(rows)[k].hash == hash then Some(old(rows)[k].id) else None
      ensures (forall r | r in old(rows) :: r.key != Some(key)) ==>
                if refusal == NotRefused
                then answer == Some(id) && rows == old(rows) + [Sending.Row(id, Some(key), hash)]
                else answer.None? && rows == old(rows)
    {
      if refusal.BeforeLookup? { return None; }
      FindHolds(rows, key);
      var found := Sending.Find(rows, Some(key));
      if found.Some? {
        Sending.FindMeans(rows, Some(key));
        return if found.value.hash == hash then Some(found.value.id) else None;
      }
      if refusal.AfterLookup? { return None; }
      Sending.FindSnoc(rows, Sending.Row(id, Some(key), hash), Some(key));
      rows := rows + [Sending.Row(id, Some(key), hash)];
      answer := Some(id);
    }

    /** Other calls insert rows of their own; the unique index keeps one row per key. */
    method OtherCalls(others: seq<Sending.Row>)
      modifies this`rows
      ensures old(rows) <= rows
    {
      var i := 0;
      while i < |others|
        invariant 0 <= i <= |others| && old(rows) <= rows
      {
        if Sending.Find(rows, others[i].key).None? { rows := rows + [others[i]]; }
        i := i + 1;
      }
    }

    /** Items are sent in order and the batch stops at the first failure. `hashes` are the
        requests, `ids` the fresh ids, `refusals` the failures they meet; the manifest check
        may fail, and before each item other calls insert what they like. */
    method BatchSend(batch: Bytes, requestHash: string, hashes: seq<string>, ids: seq<nat>, refusals: seq<Refusal>,
                     manifestFails: bool, others: nat -> seq<Sending.Row>, sha: Bytes -> Bytes)
      returns (r: Outcome)
      requires |ids| == |hashes| == |refusals|
      modifies this
      ensures old(rows) <= rows
      ensures r.Rejected? <==> |hashes| > MaxItems || BadKey(batch) || manifestFails
                               || (batch in old(manifest) && old(manifest)[batch] != requestHash)
      ensures r.Rejected? ==> rows == old(rows)
      ensures !r.Rejected? ==> manifest == old(manifest)[batch := requestHash]
      // every answered item is the row under its own key
      ensures !r.Rejected? ==> (r.AllSent? <==> |r.ids| == |hashes|) && Answers(rows, batch, r.ids, hashes, sha)
      // an item is left out only if it met a failure, or its key belongs to another request
      ensures r.Stopped? ==> refusals[|r.ids|] != NotRefused
                             || Clashes(rows, ItemKey(batch, |r.ids|, sha), hashes[|r.ids|])
      ensures !r.Rejected? ==> forall i | 0 <= i < |r.ids| :: refusals[i] != BeforeLookup
      // an item that already had a row, from an earlier try, answers with the same id
      ensures !r.Rejected? ==> forall i | 0 <= i < |r.ids|
          && Sending.Find(old(rows), Some(ItemKey(batch, i, sha))).Some? ::
                r.ids[i] == Sending.Find(old(rows), Some(ItemKey(batch, i, sha))).value.id
    {
      if |hashes| > MaxItems || BadKey(batch) || manifestFails { return Rejected; }
      var fits := EnsureBatch(batch, requestHash);
      if !fits { return Rejected; }
      var done := SendItems(batch, hashes, ids, refusals, others, sha);
      EarlierAnswers(old(rows), rows, batch, done, hashes, sha);
      r := if |done| == |hashes| then AllSent(done) else Stopped(done);
    }

    /** The items up to the first that fails. */
    method SendItems(batch: Bytes, hashes: seq<string>, ids: seq<nat>, refusals: seq<Refusal>,
                     others: nat -> seq<Sending.Row>, sha: Bytes -> Bytes) returns (done: seq<nat>)
      requires |ids| == |hashes| == |refusals|
      modifies this`rows
      ensures old(rows) <= rows && Answers(rows, batch, done, hashes, sha)
      ensures |done| < |hashes| ==> refusals[|done|] != NotRefused
                                    || Clashes(rows, ItemKey(batch, |done|, sha), hashes[|done|])
      ensures forall i | 0 <= i < |done| :: refusals[i] != BeforeLookup
    {
      done := [];
      while |done| < |hashes|
        invariant old(rows) <= rows && Answers(rows, batch, done, hashes, sha)
        invariant forall i | 0 <= i < |done| :: refusals[i] != BeforeLookup
      {
        var i := |done|;
        ghost var before := rows;
        OtherCalls(others(i));
        var answer := SendOne(ItemKey(batch, i, sha), hashes[i], ids[i], refusals[i]);
        AnswersStay(before, rows, batch, done, hashes, sha);
        if answer.None? { return; }
        done := done + [answer.value];
      }
    }
  }

  lemma {:induction false} FindGrows(a: seq<Sending.Row>, b: seq<Sending.Row>, key: Option<string>)
    requires a <= b && Sending.Find(a, key).Some?
    ensures Sending.Find(b, key) == Sending.Find(a, key)
    decreases |a|
  {
    if a[0].key != key {
      assert a[1..] <= b[1..];
      FindGrows(a[1..], b[1..], key);
    }
  }

  /** The items answered so far are the rows under their own keys. */
  ghost predicate Answers(rows: seq<Sending.Row>, batch: Bytes, ids: seq<nat>, hashes: seq<string>,
                          sha: Bytes -> Bytes) {
    && |ids| <= |hashes|
    && forall i | 0 <= i < |ids| ::
         Sending.Find(rows, Some(ItemKey(batch, i, sha)))
         == Some(Sending.Row(ids[i], Some(ItemKey(batch, i, sha)), hashes[i]))
  }

  lemma AnswersStay(before: seq<Sending.Row>, rows: seq<Sending.Row>, batch: Bytes, ids: seq<nat>,
                    hashes: seq<string>, sha: Bytes -> Bytes)
    requires before <= rows && Answers(before, batch, ids, hashes, sha)
    ensures Answers(rows, batch, ids, hashes, sha)
  {
    forall i | 0 <= i < |ids|
      ensures Sending.Find(rows, Some(ItemKey(batch, i, sha))) == Sending.Find(before, Some(ItemKey(batch, i, sha)))
    {
      FindGrows(before, rows, Some(ItemKey(batch, i, sha)));
    }
  }

  lemma EarlierAnswers(before: seq<Sending.Row>, rows: seq<Sending.Row>, batch: Bytes, ids: seq<nat>,
                       hashes: seq<string>, sha: Bytes -> Bytes)
    requires before <= rows && Answers(rows, batch, ids, hashes, sha)
    ensures forall i | 0 <= i < |ids| && Sending.Find(before, Some(ItemKey(batch, i, sha))).Some? ::
              ids[i] == Sending.Find(before, Some(ItemKey(batch, i, sha))).value.id
  {
    forall i | 0 <= i < |ids| && Sending.Find(before, Some(ItemKey(batch, i, sha))).Some?
      ensures ids[i] == Sending.Find(before, Some(ItemKey(batch, i, sha))).value.id
    {
      FindGrows(before, rows, Some(ItemKey(batch, i, sha)));
    }
  }
}
