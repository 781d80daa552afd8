/** Small things that several components use. */
module Common {

  function Max(a: int, b: int): int {
    if a > b then a else b
  }

  lemma {:induction false} LeastExists<K>(keys: set<K>, score: map<K, int>)
    requires keys != {} && keys <= score.Keys
    ensures exists k :: k in keys && forall y | y in keys :: score[k] <= score[y]
    decreases |keys|
  {
    var x :| x in keys;
    if keys == {x} {
      assert forall y | y in keys :: score[x] <= score[y];
    } else {
      var rest := keys - {x};
      assert rest != {};
      LeastExists(rest, score);
      var m :| m in rest && forall y | y in rest :: score[m] <= score[y];
      var least := if score[x] <= score[m] then x else m;
      assert least in keys && forall y | y in keys :: score[least] <= score[y];
    }
  }

  /** The first key by one score and then by another. */
  lemma FirstExists<K>(keys: set<K>, one: map<K, int>, two: map<K, int>)
    requires keys != {} && keys <= one.Keys && keys <= two.Keys
    ensures exists k :: k in keys && forall y | y in keys :: one[k] < one[y] || (one[k] == one[y] && two[k] <= two[y])
  {
    LeastExists(keys, one);
    var m :| m in keys && forall y | y in keys :: one[m] <= one[y];
    var ties := set k | k in keys && one[k] == one[m];
    assert m in ties;
    LeastExists(ties, two);
    var k :| k in ties && forall y | y in ties :: two[k] <= two[y];
    assert k in keys && forall y | y in keys :: one[k] < one[y] || (one[k] == one[y] && two[k] <= two[y]);
  }
}
