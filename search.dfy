/** Linear search by key, as JavaScript's `Array.prototype.findIndex` and `find` do it. */
module Search {

  /** Index of the first element of `s` whose key is `k`, or -1 when there is none
      (the value `findIndex(x => key(x) === k)` returns). */
  function FirstIndex<T, K(==)>(s: seq<T>, key: T -> K, k: K): (r: int)
    ensures -1 <= r < |s|
    ensures 0 <= r ==> key(s[r]) == k
    ensures forall j :: 0 <= j < |s| && (r < 0 || j < r) ==> key(s[j]) != k
    decreases |s|
  {
    if |s| == 0 then -1
    else if key(s[0]) == k then 0
    else
      var r' := FirstIndex(s[1..], key, k);
      if r' < 0 then -1 else r' + 1
  }

  /** The scan itself: walks `s` from the front and stops at the first match. */
  method FindIndex<T, K(==)>(s: seq<T>, key: T -> K, k: K) returns (r: int)
    ensures r == FirstIndex(s, key, k)
  {
    r := 0;
    while r < |s| && key(s[r]) != k
      invariant 0 <= r <= |s|
      invariant forall j :: 0 <= j < r ==> key(s[j]) != k
    {
      r := r + 1;
    }
    if r == |s| {
      r := -1;
    }
  }

  /** A match exists exactly when the search reports an index. */
  lemma FirstIndexFound<T, K>(s: seq<T>, key: T -> K, k: K)
    ensures 0 <= FirstIndex(s, key, k) <==> exists j :: 0 <= j < |s| && key(s[j]) == k
  {
  }

  /** Appending an element does not move a match found in the prefix, and an element
      appended after a prefix without matches is found at its own position. */
  lemma {:induction false} FirstIndexAppend<T, K>(s: seq<T>, x: T, key: T -> K, k: K)
    ensures var r := FirstIndex(s, key, k);
      FirstIndex(s + [x], key, k) == if 0 <= r then r else if key(x) == k then |s| else -1
    decreases |s|
  {
    if |s| == 0 {
      assert s + [x] == [x];
    } else if key(s[0]) != k {
      assert (s + [x])[1..] == s[1..] + [x];
      FirstIndexAppend(s[1..], x, key, k);
    }
  }
}
