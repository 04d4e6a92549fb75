/**
 * List operations the Python code relies on: slicing with Python's index rules,
 * "first element that satisfies", filtering, and `sorted(..., reverse=True)`
 * by a key (a stable sort, largest key first).
 */
module Seqs {
  import opened Wrappers

  function Min(a: int, b: int): int { if a <= b then a else b }
  function Max(a: int, b: int): int { if a >= b then a else b }

  /**
   * How Python turns a slice bound into a position: a negative bound counts
   * from the end, and the result is clamped into 0..len.
   */
  function ClampIndex(i: int, len: nat): (r: nat)
    ensures r <= len
    ensures 0 <= i <= len ==> r == i
    ensures i > len ==> r == len
    ensures i < 0 ==> r == Max(0, len + i)
  {
    if i < 0 then (if len + i < 0 then 0 else len + i)
    else if i > len then len
    else i
  }

  /** `s[start:stop]` with Python's rules for negative and out-of-range bounds. */
  function PySlice<T>(s: seq<T>, start: int, stop: int): (r: seq<T>)
    ensures ClampIndex(start, |s|) < ClampIndex(stop, |s|) ==>
      r == s[ClampIndex(start, |s|)..ClampIndex(stop, |s|)]
    ensures ClampIndex(stop, |s|) <= ClampIndex(start, |s|) ==> r == []
  {
    var a, b := ClampIndex(start, |s|), ClampIndex(stop, |s|);
    if a < b then s[a..b] else []
  }

  /** `s[:k]`, which is also what pandas' `head(k)` returns. */
  function PyTake<T>(s: seq<T>, k: int): (r: seq<T>)
    ensures 0 <= k ==> r == s[..Min(k, |s|)]
    ensures k < 0 ==> r == s[..Max(0, |s| + k)]
  {
    PySlice(s, 0, k)
  }

  /** The position of the first element satisfying `p`, if any. */
  function FirstIndex<T>(s: seq<T>, p: T -> bool): (r: Option<nat>)
    ensures r.Some? ==> r.value < |s| && p(s[r.value])
    ensures r.Some? ==> forall j :: 0 <= j < r.value ==> !p(s[j])
    ensures r.None? <==> forall j :: 0 <= j < |s| ==> !p(s[j])
    decreases |s|
  {
    if |s| == 0 then None
    else if p(s[0]) then Some(0)
    else match FirstIndex(s[1..], p)
      case None => None
      case Some(i) => Some(i + 1)
  }

  /**
   * The elements satisfying `p`, in their original order (a boolean-mask
   * selection); `FilterCounts` and `FilterIsSubsequence` state that each is
   * kept as often as it occurs, in order.
   */
  function Filter<T>(s: seq<T>, p: T -> bool): (r: seq<T>)
    ensures |r| <= |s|
    ensures forall x :: x in r ==> p(x)
    ensures multiset(r) <= multiset(s)
    ensures forall x :: x in s && p(x) ==> x in r
    decreases |s|
  {
    if |s| == 0 then []
    else
      var rest := Filter(s[1..], p);
      assert s == [s[0]] + s[1..];
      if p(s[0]) then [s[0]] + rest else rest
  }

  /** A mask selection keeps every element satisfying `p` as often as it occurs, and nothing else. */
  lemma {:induction false} FilterCounts<T(!new)>(s: seq<T>, p: T -> bool)
    ensures forall x :: multiset(Filter(s, p))[x] == if p(x) then multiset(s)[x] else 0
    decreases |s|
  {
    if |s| > 0 {
      FilterCounts(s[1..], p);
      assert s == [s[0]] + s[1..];
    }
  }

  /** `r` is `s` read at the increasing positions `positions`. */
  ghost predicate SubsequenceAt<T>(r: seq<T>, s: seq<T>, positions: seq<nat>) {
    && |positions| == |r|
    && (forall k :: 0 <= k < |positions| ==> positions[k] < |s| && r[k] == s[positions[k]])
    && (forall a, b :: 0 <= a < b < |positions| ==> positions[a] < positions[b])
  }

  /** `r` is made of elements of `s` taken in their order in `s`. */
  ghost predicate IsSubsequence<T>(r: seq<T>, s: seq<T>) {
    exists positions :: SubsequenceAt(r, s, positions)
  }

  /** A mask selection keeps the order of the list it selects from. */
  lemma {:induction false} FilterIsSubsequence<T>(s: seq<T>, p: T -> bool)
    ensures IsSubsequence(Filter(s, p), s)
    decreases |s|
  {
    if |s| == 0 {
      assert SubsequenceAt([], s, []);
    } else {
      var rest := Filter(s[1..], p);
      FilterIsSubsequence(s[1..], p);
      var positions :| SubsequenceAt(rest, s[1..], positions);
      assert s == [s[0]] + s[1..];
      var shifted := SubsequenceCons(rest, s[0], s[1..], positions);
      if p(s[0]) {
        assert Filter(s, p) == [s[0]] + rest;
        assert SubsequenceAt(Filter(s, p), s, [0] + shifted);
      } else {
        assert Filter(s, p) == rest;
        assert SubsequenceAt(Filter(s, p), s, shifted);
      }
    }
  }

  /** A subsequence of `t` stays one of `[x] + t`, with or without `x` in front. */
  lemma SubsequenceCons<T>(r: seq<T>, x: T, t: seq<T>, positions: seq<nat>) returns (shifted: seq<nat>)
    requires SubsequenceAt(r, t, positions)
    ensures SubsequenceAt(r, [x] + t, shifted)
    ensures SubsequenceAt([x] + r, [x] + t, [0] + shifted)
  {
    shifted := seq(|positions|, k requires 0 <= k < |positions| => positions[k] + 1);
    assert forall k :: 0 <= k < |positions| ==> ([x] + t)[shifted[k]] == t[positions[k]];
  }

  /** No element has a larger key than one before it. */
  ghost predicate NonIncreasing<T>(s: seq<T>, key: T -> int) {
    forall i, j :: 0 <= i < j < |s| ==> key(s[i]) >= key(s[j])
  }

  /** Puts `x` after every element with a strictly larger key and before the rest. */
  function Insert<T>(x: T, s: seq<T>, key: T -> int): (r: seq<T>)
    ensures multiset(r) == multiset(s) + multiset{x}
    ensures |r| == |s| + 1
    decreases |s|
  {
    if |s| == 0 then [x]
    else if key(s[0]) > key(x) then
      assert s == [s[0]] + s[1..];
      [s[0]] + Insert(x, s[1..], key)
    else
      [x] + s
  }

  /** What `Insert` returns holds `x` and the elements of `s`, nothing else. */
  lemma InsertElements<T>(x: T, s: seq<T>, key: T -> int)
    ensures forall y :: y in Insert(x, s, key) ==> y == x || y in s
  {
  }

  /** Inserting into a key-sorted list keeps it key-sorted. */
  lemma {:induction false} InsertSorted<T>(x: T, s: seq<T>, key: T -> int)
    requires NonIncreasing(s, key)
    ensures NonIncreasing(Insert(x, s, key), key)
    decreases |s|
  {
    if |s| > 0 && key(s[0]) > key(x) {
      var rest := Insert(x, s[1..], key);
      InsertSorted(x, s[1..], key);
      var r := [s[0]] + rest;
      assert Insert(x, s, key) == r;
      forall j | 0 < j < |r| ensures key(r[0]) >= key(r[j]) {
        var y := rest[j - 1];
        assert y in multiset(rest);
        assert y == x || y in multiset(s[1..]);
        if y != x {
          var b :| 0 <= b < |s[1..]| && s[1..][b] == y;
          assert s[b + 1] == y;
        }
      }
      forall i, j | 0 <= i < j < |r| ensures key(r[i]) >= key(r[j]) {
        if i > 0 {
          assert r[i] == rest[i - 1] && r[j] == rest[j - 1];
        }
      }
    }
  }

  /**
   * `sorted(s, key=key, reverse=True)`: insertion sort that places each element
   * before the elements of equal key that followed it, so equal keys keep their order.
   */
  function SortByKeyDesc<T>(s: seq<T>, key: T -> int): (r: seq<T>)
    ensures multiset(r) == multiset(s)
    ensures |r| == |s|
    ensures NonIncreasing(r, key)
    decreases |s|
  {
    if |s| == 0 then []
    else
      assert s == [s[0]] + s[1..];
      var rest := SortByKeyDesc(s[1..], key);
      InsertSorted(s[0], rest, key);
      Insert(s[0], rest, key)
  }

  /** Nothing in `leftOut` has a larger key than any element of `r`. */
  ghost predicate KeepsLargest<T>(r: seq<T>, leftOut: multiset<T>, key: T -> int) {
    forall i, y :: 0 <= i < |r| && y in leftOut ==> key(y) <= key(r[i])
  }

  /** In a key-sorted list nothing after position `n` has a larger key than anything before it. */
  lemma PrefixDominates<T>(sorted: seq<T>, n: nat, key: T -> int)
    requires n <= |sorted| && NonIncreasing(sorted, key)
    ensures KeepsLargest(sorted[..n], multiset(sorted[n..]), key)
  {
  }

  /**
   * Taking the first `k` of a key-sorted list gives the `min(k, |s|)` elements
   * with the largest keys: what is taken is a sub-multiset of `s` in
   * non-increasing key order, and nothing left behind has a larger key than
   * anything taken.
   */
  lemma TopByKey<T>(s: seq<T>, key: T -> int, k: int)
    requires k >= 0
    ensures |PyTake(SortByKeyDesc(s, key), k)| == Min(k, |s|)
    ensures NonIncreasing(PyTake(SortByKeyDesc(s, key), k), key)
    ensures multiset(PyTake(SortByKeyDesc(s, key), k)) <= multiset(s)
    ensures KeepsLargest(PyTake(SortByKeyDesc(s, key), k), multiset(s) - multiset(PyTake(SortByKeyDesc(s, key), k)), key)
  {
    var sorted := SortByKeyDesc(s, key);
    var n := Min(k, |s|);
    var r := PyTake(sorted, k);
    assert r == sorted[..n];
    SplitMultiset(sorted, n);
    PrefixDominates(sorted, n, key);
  }

  /** Splitting a list at `n` splits its multiset of elements. */
  lemma SplitMultiset<T>(s: seq<T>, n: nat)
    requires n <= |s|
    ensures multiset(s) - multiset(s[..n]) == multiset(s[n..])
    ensures multiset(s[..n]) <= multiset(s)
  {
    assert s == s[..n] + s[n..];
  }
}
