/**
 * A stable ascending sort of the indices 0..n-1 of a key vector, the value
 * of `v.sort_by(|a, b| a.1.partial_cmp(&b.1).unwrap())` on a vector of
 * (index, key) pairs that starts in index order.  Because Rust's
 * `sort_by` is stable, equal keys keep their index order, so the result is
 * the ascending order of the pairs (key, index).
 */
module IndexSort {

  /** `i` precedes `j` in the stable order: a smaller key, or an equal key and a smaller index. */
  predicate Before(key: seq<real>, i: nat, j: nat)
    requires i < |key| && j < |key|
  {
    key[i] < key[j] || (key[i] == key[j] && i < j)
  }

  /** Every entry indexes `key`, and the entries appear in strictly increasing stable order. */
  predicate Ordered(key: seq<real>, s: seq<nat>)
  {
    (forall a :: 0 <= a < |s| ==> s[a] < |key|)
    && (forall a, b :: 0 <= a < b < |s| ==> Before(key, s[a], s[b]))
  }

  /** `order` lists each of the indices 0..n-1 exactly once. */
  ghost predicate IsPermutation(order: seq<nat>, n: nat)
  {
    |order| == n
    && (forall y: nat :: y in order <==> y < n)
    && (forall a, b :: 0 <= a < b < |order| ==> order[a] != order[b])
  }

  /** Inserts index `x` into an ordered sequence. */
  function Insert(key: seq<real>, x: nat, s: seq<nat>): (r: seq<nat>)
    requires x < |key| && Ordered(key, s) && x !in s
    ensures |r| == |s| + 1
    ensures forall y :: y in r <==> y == x || y in s
    ensures Ordered(key, r)
  {
    if |s| == 0 then [x]
    else if Before(key, x, s[0]) then
      assert forall b :: 0 < b < |s| ==> Before(key, s[0], s[b]);
      [x] + s
    else
      assert forall b :: 0 <= b < |s[1..]| ==> s[1..][b] == s[b + 1];
      var rest := Insert(key, x, s[1..]);
      assert Before(key, s[0], x);
      assert forall b :: 0 <= b < |rest| ==> Before(key, s[0], rest[b]) by {
        forall b | 0 <= b < |rest|
          ensures Before(key, s[0], rest[b])
        {
          if rest[b] != x {
            assert rest[b] in s[1..];
          }
        }
      }
      [s[0]] + rest
  }

  /** The indices 0..n-1 in stable ascending key order. */
  function SortIndices(key: seq<real>, n: nat): (r: seq<nat>)
    requires n <= |key|
    ensures |r| == n
    ensures forall y: nat :: y in r <==> y < n
    ensures Ordered(key, r)
  {
    if n == 0 then []
    else Insert(key, n - 1, SortIndices(key, n - 1))
  }

  /** An ordered sequence has no repeated index. */
  lemma OrderedDistinct(key: seq<real>, s: seq<nat>)
    requires Ordered(key, s)
    ensures forall a, b :: 0 <= a < b < |s| ==> s[a] != s[b]
  {
  }

  /**
   * Taking a prefix of the sorted indices selects the smallest keys: an
   * index left out has a key at least as large as every index kept, and on
   * an equal key it is the larger index.
   */
  lemma PrefixHoldsSmallest(key: seq<real>, n: nat, k: nat, a: nat, y: nat)
    requires n <= |key| && k <= n && a < k && y < n
    requires y !in SortIndices(key, n)[..k]
    ensures key[SortIndices(key, n)[a]] <= key[y]
    ensures Before(key, SortIndices(key, n)[a], y)
  {
    var r := SortIndices(key, n);
    assert y in r;
    var b :| 0 <= b < |r| && r[b] == y;
    assert forall j :: 0 <= j < k ==> r[..k][j] == r[j];
    assert Before(key, r[a], r[b]);
  }
}
