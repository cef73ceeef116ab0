/** `Array.prototype.sort` with a comparator of the form
    `(a, b) => key(b) - key(a)`: largest key first. `Array.prototype.sort`
    is stable; `SortDesc` inserts each element after the equal keys already
    placed (`InsertAt`), though no lemma here states stability of the whole
    sort. An ascending sort is the same sort on the negated key. */
module Sorting {

  predicate SortedDesc<T>(s: seq<T>, key: T -> int) {
    forall i, j :: 0 <= i < j < |s| ==> key(s[i]) >= key(s[j])
  }

  /** Puts `x` before the first element whose key is strictly smaller. */
  function Insert<T>(s: seq<T>, x: T, key: T -> int): (r: seq<T>)
    ensures |r| == |s| + 1
  {
    if s == [] then [x]
    else if key(s[0]) < key(x) then [x] + s
    else [s[0]] + Insert(s[1..], x, key)
  }

  /** The insertion sort of `s`: the elements are inserted left to right. */
  function SortDesc<T>(s: seq<T>, key: T -> int): (r: seq<T>)
    ensures |r| == |s|
  {
    if s == [] then [] else Insert(SortDesc(s[..|s| - 1], key), s[|s| - 1], key)
  }

  lemma {:induction false} InsertMultiset<T>(s: seq<T>, x: T, key: T -> int)
    ensures multiset(Insert(s, x, key)) == multiset(s) + multiset{x}
    decreases |s|
  {
    if s != [] && key(s[0]) >= key(x) {
      InsertMultiset(s[1..], x, key);
      assert s == [s[0]] + s[1..];
    }
  }

  lemma {:induction false} InsertKeysBelow<T>(s: seq<T>, x: T, key: T -> int, b: int)
    requires forall i :: 0 <= i < |s| ==> key(s[i]) <= b
    requires key(x) <= b
    ensures forall i :: 0 <= i < |s| + 1 ==> key(Insert(s, x, key)[i]) <= b
    decreases |s|
  {
    if s != [] && key(s[0]) >= key(x) {
      InsertKeysBelow(s[1..], x, key, b);
    }
  }

  lemma {:induction false} InsertSorted<T>(s: seq<T>, x: T, key: T -> int)
    requires SortedDesc(s, key)
    ensures SortedDesc(Insert(s, x, key), key)
    decreases |s|
  {
    if s != [] && key(s[0]) >= key(x) {
      InsertSorted(s[1..], x, key);
      InsertKeysBelow(s[1..], x, key, key(s[0]));
    }
  }

  /** Where the insertion lands: after every key at least `key(x)`, before
      the first smaller one. */
  lemma {:induction false} InsertAt<T>(s: seq<T>, x: T, key: T -> int, j: nat)
    requires j <= |s|
    requires forall l :: 0 <= l < j ==> key(s[l]) >= key(x)
    requires j < |s| ==> key(s[j]) < key(x)
    ensures Insert(s, x, key) == s[..j] + [x] + s[j..]
    decreases j
  {
    if j == 0 {
      assert s[..0] == [] && s[0..] == s;
    } else {
      InsertAt(s[1..], x, key, j - 1);
      assert s[..j] == [s[0]] + s[1..][..j - 1];
      assert s[j..] == s[1..][j - 1..];
    }
  }

  /** The sort gives a reordering of its input. */
  lemma {:induction false} SortDescPermutation<T>(s: seq<T>, key: T -> int)
    ensures multiset(SortDesc(s, key)) == multiset(s)
    decreases |s|
  {
    if s != [] {
      var p, x := s[..|s| - 1], s[|s| - 1];
      assert SortDesc(s, key) == Insert(SortDesc(p, key), x, key);
      SortDescPermutation(p, key);
      InsertMultiset(SortDesc(p, key), x, key);
      assert s == p + [x];
      assert multiset(s) == multiset(p) + multiset{x};
    }
  }

  /** The sort gives its input in key order. */
  lemma {:induction false} SortDescSorted<T>(s: seq<T>, key: T -> int)
    ensures SortedDesc(SortDesc(s, key), key)
    decreases |s|
  {
    if s != [] {
      SortDescSorted(s[..|s| - 1], key);
      InsertSorted(SortDesc(s[..|s| - 1], key), s[|s| - 1], key);
    }
  }

  /** A list already in order comes back unchanged. */
  lemma {:induction false} SortDescOfSorted<T>(s: seq<T>, key: T -> int)
    requires SortedDesc(s, key)
    ensures SortDesc(s, key) == s
    decreases |s|
  {
    if s != [] {
      var p := s[..|s| - 1];
      assert SortedDesc(p, key);
      SortDescOfSorted(p, key);
      InsertAt(p, s[|s| - 1], key, |p|);
      assert p[..|p|] == p && p[|p|..] == [];
      assert s == p + [s[|s| - 1]];
    }
  }

  /** Cutting a sorted list: the front and the back together hold its
      elements, and no key at the back exceeds one at the front. */
  lemma SortedSplit<T>(s: seq<T>, key: T -> int, n: nat)
    requires SortedDesc(s, key) && n <= |s|
    ensures SortedDesc(s[..n], key)
    ensures multiset(s[..n]) + multiset(s[n..]) == multiset(s)
    ensures forall i, j :: 0 <= i < n && 0 <= j < |s| - n ==> key(s[..n][i]) >= key(s[n..][j])
  {
    assert s == s[..n] + s[n..];
    forall i, j | 0 <= i < n && 0 <= j < |s| - n ensures key(s[..n][i]) >= key(s[n..][j]) {
      assert s[..n][i] == s[i] && s[n..][j] == s[n + j];
    }
  }

  /** One pass of the sort: `a[i]` is swapped leftwards past the smaller
      keys of the sorted prefix `a[..i]`. */
  method InsertLast<T>(a: array<T>, i: nat, key: T -> int)
    requires i < a.Length
    requires SortedDesc(a[..i], key)
    modifies a
    ensures a[..i + 1] == Insert(old(a[..i]), old(a[i]), key)
    ensures a[i + 1..] == old(a[i + 1..])
  {
    ghost var p := a[..i];
    var x := a[i];
    var j := i;
    while j > 0 && key(a[j - 1]) < key(a[j])
      invariant 0 <= j <= i
      invariant a[j] == x
      invariant forall k :: 0 <= k < j ==> a[k] == p[k]
      invariant forall k :: j < k <= i ==> a[k] == p[k - 1]
      invariant forall k :: i < k < a.Length ==> a[k] == old(a[k])
      invariant forall l :: j <= l < i ==> key(p[l]) < key(x)
    {
      a[j - 1], a[j] := a[j], a[j - 1];
      j := j - 1;
    }
    assert j > 0 ==> key(p[j - 1]) >= key(x);
    PassEndsInserted(a[..i + 1], p, x, key, j);
  }

  /** When the swaps stop at `j`, the prefix is the functional insert. */
  lemma PassEndsInserted<T>(b: seq<T>, p: seq<T>, x: T, key: T -> int, j: nat)
    requires |b| == |p| + 1 && j <= |p|
    requires SortedDesc(p, key)
    requires b[j] == x
    requires forall k :: 0 <= k < j ==> b[k] == p[k]
    requires forall k :: j < k < |b| ==> b[k] == p[k - 1]
    requires forall l :: j <= l < |p| ==> key(p[l]) < key(x)
    requires j > 0 ==> key(p[j - 1]) >= key(x)
    ensures b == Insert(p, x, key)
  {
    forall l | 0 <= l < j
      ensures key(p[l]) >= key(x)
    {
      assert key(p[l]) >= key(p[j - 1]);
    }
    InsertAt(p, x, key, j);
    ShiftedIsSplice(b, p, x, j);
  }

  /** A list that agrees with `p` before `j`, holds `x` at `j` and `p` shifted
      one place after it is `p` with `x` spliced in at `j`. */
  lemma ShiftedIsSplice<T>(b: seq<T>, p: seq<T>, x: T, j: nat)
    requires |b| == |p| + 1 && j <= |p|
    requires b[j] == x
    requires forall k :: 0 <= k < j ==> b[k] == p[k]
    requires forall k :: j < k < |b| ==> b[k] == p[k - 1]
    ensures b == p[..j] + [x] + p[j..]
  {
    var q := p[..j] + [x] + p[j..];
    forall k | 0 <= k < |b|
      ensures b[k] == q[k]
    {
      if k < j {
        assert q[k] == p[k];
      } else if k > j {
        assert q[k] == p[k - 1];
      }
    }
  }

  /** Sorts `a` in place, as `.sort` does on the array it is called on. */
  method SortInPlace<T>(a: array<T>, key: T -> int)
    modifies a
    ensures a[..] == SortDesc(old(a[..]), key)
  {
    ghost var input := a[..];
    var i := 0;
    while i < a.Length
      invariant 0 <= i <= a.Length
      invariant a[..i] == SortDesc(input[..i], key)
      invariant a[i..] == input[i..]
    {
      SortDescSorted(input[..i], key);
      InsertLast(a, i, key);
      assert input[..i + 1][..i] == input[..i];
      i := i + 1;
    }
    assert input[..a.Length] == input;
  }
}
