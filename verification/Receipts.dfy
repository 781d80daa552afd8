/** Receipts in the processing list: a token, a separator and the email id
    (internal/queue/redis.go:273-275 and the decoding inside `Recover`). */
module Receipts {

  const Sep := '|'

  function Encode(token: string, id: string): string {
    token + [Sep] + id
  }

  predicate Tokenised(item: string) {
    Sep in item
  }

  /** What follows the first separator; a raw item is its own id. */
  function IdOf(item: string): string {
    if Sep !in item then item else AfterSep(item)
  }

  function AfterSep(item: string): string
    requires Sep in item
  {
    if item[0] == Sep then item[1..] else AfterSep(item[1..])
  }

  lemma {:induction false} DecodingReturnsTheId(token: string, id: string)
    requires Sep !in token
    ensures Tokenised(Encode(token, id)) && IdOf(Encode(token, id)) == id
  {
    var item := Encode(token, id);
    assert item[|token|] == Sep;
    if token != [] {
      assert item[0] == token[0] && item[1..] == Encode(token[1..], id);
      DecodingReturnsTheId(token[1..], id);
    } else {
      assert item[1..] == id;
    }
  }

  /** The restriction on tokens is exact: with a separator in the token, part of the token is
      taken for the id. */
  lemma DecodingReturnsTheIdIff(token: string, id: string)
    ensures IdOf(Encode(token, id)) == id <==> Sep !in token
  {
    if Sep in token {
      DecodingKeepsTheTail(token, id);
      assert |IdOf(Encode(token, id))| > |id|;
    } else {
      DecodingReturnsTheId(token, id);
    }
  }

  lemma {:induction false} DecodingKeepsTheTail(token: string, id: string)
    requires Sep in token
    ensures Sep in Encode(token, id) && AfterSep(Encode(token, id)) == Encode(AfterSep(token), id)
  {
    var item := Encode(token, id);
    assert item[0] == token[0] && item[1..] == Encode(token[1..], id);
    if token[0] != Sep {
      DecodingKeepsTheTail(token[1..], id);
    }
  }

  lemma ReceiptsAreUnambiguous(t1: string, i1: string, t2: string, i2: string)
    requires Sep !in t1 && Sep !in t2 && Encode(t1, i1) == Encode(t2, i2)
    ensures t1 == t2 && i1 == i2
  {
    DecodingReturnsTheId(t1, i1);
    DecodingReturnsTheId(t2, i2);
    var item := Encode(t1, i1);
    assert |t1| == |t2|;
    assert t1 == item[..|t1|] && t2 == item[..|t2|];
  }

  // A raw item left by an old worker is recognised by the shape of a UUID.

  predicate IsHex(c: char) {
    '0' <= c <= '9' || 'a' <= c <= 'f' || 'A' <= c <= 'F'
  }

  /** `groups` hex groups joined by dashes, each non-empty. */
  predicate HexGroups(s: string, groups: nat, started: bool) {
    if s == [] then groups == 1 && started
    else if IsHex(s[0]) then HexGroups(s[1..], groups, true)
    else s[0] == '-' && started && groups > 1 && HexGroups(s[1..], groups - 1, false)
  }

  predicate UuidShaped(s: string) {
    HexGroups(s, 5, false)
  }

  function Join(groups: seq<string>): string
    requires groups != []
  {
    if |groups| == 1 then groups[0] else groups[0] + "-" + Join(groups[1..])
  }

  predicate AllHex(s: string) {
    forall c | c in s :: c in "0123456789abcdefABCDEF"
  }

  predicate AreGroups(groups: seq<string>, started: bool) {
    && groups != [] && (started || groups[0] != [])
    && (forall i | 0 < i < |groups| :: groups[i] != []) && (forall g | g in groups :: AllHex(g))
  }

  lemma {:induction false} ShapedSplits(s: string, n: nat, started: bool) returns (groups: seq<string>)
    requires HexGroups(s, n, started) && n > 0
    ensures AreGroups(groups, started) && |groups| == n && s == Join(groups)
  {
    if s == [] {
      groups := [[]];
    } else if IsHex(s[0]) {
      var rest := ShapedSplits(s[1..], n, true);
      groups := [[s[0]] + rest[0]] + rest[1..];
      assert forall g | g in groups :: g == groups[0] || g in rest;
      assert AllHex(rest[0]);
      assert groups[1..] == rest[1..];
      assert s == [s[0]] + s[1..];
    } else {
      var rest := ShapedSplits(s[1..], n - 1, false);
      groups := [[]] + rest;
      assert groups[1..] == rest && s == "-" + s[1..];
    }
  }

  lemma {:induction false} SplitsAreShaped(groups: seq<string>, started: bool)
    requires AreGroups(groups, started)
    ensures HexGroups(Join(groups), |groups|, started)
    decreases |groups|, if groups == [] then 0 else |groups[0]|
  {
    var s, first, rest := Join(groups), groups[0], groups[1..];
    if first != [] {
      var peeled := [first[1..]] + rest;
      assert peeled[1..] == rest && forall g | g in peeled :: g == first[1..] || g in groups;
      assert AllHex(first) && first[0] in first;
      SplitsAreShaped(peeled, true);
      assert s[0] == first[0] && s[1..] == Join(peeled);
    } else if rest != [] {
      assert rest[0] == groups[1];
      assert forall i | 0 < i < |rest| :: rest[i] == groups[i + 1];
      SplitsAreShaped(rest, false);
      assert s[0] == '-' && s[1..] == Join(rest);
    }
  }

  /** Five non-empty groups of hex digits joined by dashes. */
  lemma UuidShapedIff(s: string)
    ensures UuidShaped(s) <==> exists groups :: AreGroups(groups, false) && |groups| == 5 && s == Join(groups)
  {
    if UuidShaped(s) {
      var groups := ShapedSplits(s, 5, false);
    }
    if groups :| AreGroups(groups, false) && |groups| == 5 && s == Join(groups) {
      SplitsAreShaped(groups, false);
    }
  }
}
