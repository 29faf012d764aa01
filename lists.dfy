/** The array idioms the slices use on their lists: `findIndex` by id, overwrite
    the found element, `map` that swaps matching elements, and `filter`. Generic in
    the element type, with the id given as a key function. */
module Lists {

  /** Position `i` holds the first element of `xs` whose key is `k`. */
  predicate IsFirstMatch<T, K(==)>(xs: seq<T>, key: T -> K, k: K, i: int)
  {
    0 <= i < |xs| && key(xs[i]) == k && forall j :: 0 <= j < i ==> key(xs[j]) != k
  }

  /** `xs.findIndex(x => key(x) === k)`: the first position whose key is `k`, or -1. */
  function FindIndex<T, K(==)>(xs: seq<T>, key: T -> K, k: K): (r: int)
    ensures -1 <= r < |xs|
    ensures r == -1 <==> forall i :: 0 <= i < |xs| ==> key(xs[i]) != k
    ensures r != -1 ==> IsFirstMatch(xs, key, k, r)
  {
    if xs == [] then -1
    else if key(xs[0]) == k then 0
    else
      var j := FindIndex(xs[1..], key, k);
      assert forall i :: 1 <= i < |xs| ==> xs[i] == xs[1..][i - 1];
      if j == -1 then -1 else j + 1
  }

  /** There is at most one first match. */
  lemma FirstMatchUnique<T, K>(xs: seq<T>, key: T -> K, k: K, i: int, j: int)
    requires IsFirstMatch(xs, key, k, i) && IsFirstMatch(xs, key, k, j)
    ensures i == j
  {
  }

  /** The reducer pattern `index = findIndex(...); if (index !== -1) xs[index] = x`. */
  function ReplaceFirst<T, K(==)>(xs: seq<T>, key: T -> K, x: T): (r: seq<T>)
    ensures |r| == |xs|
    ensures forall i :: 0 <= i < |xs| ==> r[i] == (if IsFirstMatch(xs, key, key(x), i) then x else xs[i])
    ensures (forall i :: 0 <= i < |xs| ==> key(xs[i]) != key(x)) ==> r == xs
  {
    var index := FindIndex(xs, key, key(x));
    if index != -1 then
      assert forall i :: 0 <= i < |xs| && IsFirstMatch(xs, key, key(x), i) ==> i == index;
      xs[index := x]
    else xs
  }

  /** `xs.map(y => key(y) === key(x) ? x : y)`: every element with x's key becomes x. */
  function ReplaceAll<T, K(==)>(xs: seq<T>, key: T -> K, x: T): (r: seq<T>)
    ensures |r| == |xs|
    ensures forall i :: 0 <= i < |xs| ==> r[i] == (if key(xs[i]) == key(x) then x else xs[i])
  {
    if xs == [] then []
    else [if key(xs[0]) == key(x) then x else xs[0]] + ReplaceAll(xs[1..], key, x)
  }

  /** `xs.filter(y => key(y) !== k)` */
  function RemoveWhere<T, K(==)>(xs: seq<T>, key: T -> K, k: K): (r: seq<T>)
    ensures |r| <= |xs|
    ensures forall i :: 0 <= i < |r| ==> r[i] in xs && key(r[i]) != k
    ensures forall i :: 0 <= i < |xs| && key(xs[i]) != k ==> xs[i] in r
  {
    if xs == [] then []
    else if key(xs[0]) == k then RemoveWhere(xs[1..], key, k)
    else [xs[0]] + RemoveWhere(xs[1..], key, k)
  }

  /** Filtering keeps the order of what remains: it distributes over concatenation. */
  lemma {:induction false} RemoveWhereAppend<T, K>(a: seq<T>, b: seq<T>, key: T -> K, k: K)
    ensures RemoveWhere(a + b, key, k) == RemoveWhere(a, key, k) + RemoveWhere(b, key, k)
  {
    if a != [] {
      assert (a + b)[1..] == a[1..] + b;
      RemoveWhereAppend(a[1..], b, key, k);
    } else {
      assert a + b == b;
    }
  }

  /** Filtering a list in which nothing has key `k` gives the list back. */
  lemma {:induction false} RemoveWhereAbsent<T, K>(xs: seq<T>, key: T -> K, k: K)
    requires forall i :: 0 <= i < |xs| ==> key(xs[i]) != k
    ensures RemoveWhere(xs, key, k) == xs
  {
    if xs != [] {
      var tail := xs[1..];
      assert forall i :: 0 <= i < |tail| ==> tail[i] == xs[i + 1];
      RemoveWhereAbsent(tail, key, k);
      assert key(xs[0]) != k;
      assert RemoveWhere(xs, key, k) == [xs[0]] + tail;
      assert [xs[0]] + tail == xs;
    }
  }

  /** Replacing never changes which key sits at which position. */
  lemma ReplaceFirstKeepsKeys<T, K>(xs: seq<T>, key: T -> K, x: T)
    ensures var r := ReplaceFirst(xs, key, x);
      forall i :: 0 <= i < |xs| ==> key(r[i]) == key(xs[i])
  {
  }

  /** Of two replacements under the same key, the later one wins. */
  lemma ReplaceFirstTwice<T, K>(xs: seq<T>, key: T -> K, x: T, y: T)
    requires key(x) == key(y)
    ensures ReplaceFirst(ReplaceFirst(xs, key, x), key, y) == ReplaceFirst(xs, key, y)
  {
    var r1 := ReplaceFirst(xs, key, x);
    ReplaceFirstKeepsKeys(xs, key, x);
    assert forall i :: 0 <= i < |xs| ==> (IsFirstMatch(r1, key, key(y), i) <==> IsFirstMatch(xs, key, key(y), i));
  }
}
