/** The `Array.prototype.sort` calls of the engine: a stable sort into
    non-increasing order of a numeric key (the comparator `key(b) - key(a)`).
    `SortDesc` is the specification, an insertion sort on sequences;
    `SortInPlace` is the in-place algorithm proved to compute it. */
module Sorting {

  predicate SortedDesc<T>(s: seq<T>, key: T -> real) {
    forall i, j :: 0 <= i < j < |s| ==> key(s[i]) >= key(s[j])
  }

  /** Inserts `x` into `t` just after the last element whose key is at least
      `key(x)`, so that equal keys keep their order. */
  function Insert<T>(t: seq<T>, x: T, key: T -> real): (r: seq<T>)
    ensures |r| == |t| + 1
  {
    if t == [] || key(t[|t| - 1]) >= key(x) then t + [x]
    else Insert(t[..|t| - 1], x, key) + [t[|t| - 1]]
  }

  /** The stable sort by non-increasing key. */
  function SortDesc<T>(s: seq<T>, key: T -> real): (r: seq<T>)
    ensures |r| == |s|
  {
    if s == [] then [] else Insert(SortDesc(s[..|s| - 1], key), s[|s| - 1], key)
  }

  lemma {:induction false} InsertPermutes<T>(t: seq<T>, x: T, key: T -> real)
    ensures multiset(Insert(t, x, key)) == multiset(t) + multiset{x}
  {
    if t != [] && key(t[|t| - 1]) < key(x) {
      var n := |t| - 1;
      InsertPermutes(t[..n], x, key);
      assert t == t[..n] + [t[n]];
    }
  }

  lemma {:induction false} InsertSorted<T>(t: seq<T>, x: T, key: T -> real)
    requires SortedDesc(t, key)
    ensures SortedDesc(Insert(t, x, key), key)
  {
    if t != [] && key(t[|t| - 1]) < key(x) {
      var n := |t| - 1;
      var last := t[n];
      var u := Insert(t[..n], x, key);
      InsertSorted(t[..n], x, key);
      InsertPermutes(t[..n], x, key);
      forall i | 0 <= i < |u| ensures key(u[i]) >= key(last) {
        assert u[i] in multiset(t[..n]) + multiset{x};
        if u[i] in t[..n] {
          var k :| 0 <= k < n && t[..n][k] == u[i];
          assert t[k] == u[i];
        }
      }
    }
  }

  /** The sort yields non-increasing keys. */
  lemma {:induction false} SortDescSorted<T>(s: seq<T>, key: T -> real)
    ensures SortedDesc(SortDesc(s, key), key)
  {
    if s != [] {
      SortDescSorted(s[..|s| - 1], key);
      InsertSorted(SortDesc(s[..|s| - 1], key), s[|s| - 1], key);
    }
  }

  /** The sort is a permutation of its input. */
  lemma {:induction false} SortDescPermutes<T>(s: seq<T>, key: T -> real)
    ensures multiset(SortDesc(s, key)) == multiset(s)
  {
    if s != [] {
      var n := |s| - 1;
      SortDescPermutes(s[..n], key);
      InsertPermutes(SortDesc(s[..n], key), s[n], key);
      assert s == s[..n] + [s[n]];
    }
  }

  /** An input already in order is returned unchanged. */
  lemma {:induction false} SortDescOfSorted<T>(s: seq<T>, key: T -> real)
    requires SortedDesc(s, key)
    ensures SortDesc(s, key) == s
  {
    if s != [] {
      var n := |s| - 1;
      assert SortedDesc(s[..n], key);
      SortDescOfSorted(s[..n], key);
      assert s == s[..n] + [s[n]];
    }
  }

  /** Sorting twice is sorting once. */
  lemma SortDescIdempotent<T>(s: seq<T>, key: T -> real)
    ensures SortDesc(SortDesc(s, key), key) == SortDesc(s, key)
  {
    SortDescSorted(s, key);
    SortDescOfSorted(SortDesc(s, key), key);
  }

  /** `f(s[0]) + ... + f(s[|s|-1])`. */
  function SumBy<T>(s: seq<T>, f: T -> real): real {
    if s == [] then 0.0 else SumBy(s[..|s| - 1], f) + f(s[|s| - 1])
  }

  lemma {:induction false} InsertKeepsSum<T>(t: seq<T>, x: T, key: T -> real, f: T -> real)
    ensures SumBy(Insert(t, x, key), f) == SumBy(t, f) + f(x)
  {
    if t == [] || key(t[|t| - 1]) >= key(x) {
      assert (t + [x])[..|t|] == t;
    } else {
      var n := |t| - 1;
      InsertKeepsSum(t[..n], x, key, f);
      var u := Insert(t[..n], x, key);
      assert (u + [t[n]])[..|u|] == u;
    }
  }

  /** Sorting does not change a sum over the elements. */
  lemma {:induction false} SortDescKeepsSum<T>(s: seq<T>, key: T -> real, f: T -> real)
    ensures SumBy(SortDesc(s, key), f) == SumBy(s, f)
  {
    if s != [] {
      var n := |s| - 1;
      SortDescKeepsSum(s[..n], key, f);
      InsertKeepsSum(SortDesc(s[..n], key), s[n], key, f);
    }
  }

  /** One step of the shifting loop: passing an element with a smaller key
      moves the insertion point one place left. */
  lemma InsertStep<T>(t: seq<T>, x: T, key: T -> real, j: nat)
    requires 0 < j <= |t| && key(t[j - 1]) < key(x)
    ensures Insert(t[..j], x, key) + t[j..] == Insert(t[..j - 1], x, key) + t[j - 1..]
  {
    assert t[..j][..j - 1] == t[..j - 1];
    assert t[j - 1..] == [t[j - 1]] + t[j..];
  }

  /** The inner loop of insertion sort: shifts `a[i]` left past the
      elements of the sorted prefix with smaller keys. */
  method ShiftInto<T>(a: array<T>, i: nat, key: T -> real)
    requires i < a.Length
    modifies a
    ensures a[..i + 1] == Insert(old(a[..i]), old(a[i]), key)
    ensures a[i + 1..] == old(a[i + 1..])
  {
    ghost var t := a[..i];
    var x := a[i];
    var j := i;
    assert t[..j] == t && t[j..] == [];
    while j > 0 && key(a[j - 1]) < key(x)
      invariant 0 <= j <= i
      invariant forall k :: 0 <= k < j ==> a[k] == t[k]
      invariant forall k :: j < k <= i ==> a[k] == t[k - 1]
      invariant a[i + 1..] == old(a[i + 1..])
      invariant Insert(t, x, key) == Insert(t[..j], x, key) + t[j..]
    {
      InsertStep(t, x, key, j);
      a[j] := a[j - 1];
      j := j - 1;
    }
    a[j] := x;
    assert a[..i + 1] == t[..j] + [x] + t[j..] by {
      forall k | 0 <= k <= i ensures a[k] == (t[..j] + [x] + t[j..])[k] {
        if k < j {
          assert (t[..j] + [x] + t[j..])[k] == t[k];
        } else if j < k {
          assert (t[..j] + [x] + t[j..])[k] == t[k - 1];
        }
      }
    }
    assert Insert(t[..j], x, key) == t[..j] + [x];
  }

  /** Insertion sort in place: the prefix `a[..i]` is kept sorted. */
  method SortInPlace<T>(a: array<T>, key: T -> real)
    modifies a
    ensures a[..] == SortDesc(old(a[..]), key)
  {
    ghost var s := a[..];
    var i := 0;
    while i < a.Length
      invariant 0 <= i <= a.Length
      invariant a[..i] == SortDesc(s[..i], key)
      invariant a[i..] == s[i..]
    {
      assert a[i] == s[i] by {
        assert a[i..][0] == s[i..][0];
      }
      ShiftInto(a, i, key);
      assert s[..i + 1][..i] == s[..i];
      assert a[i + 1..] == s[i + 1..] by {
        assert s[i + 1..] == s[i..][1..];
      }
      i := i + 1;
    }
    assert a[..a.Length] == a[..];
    assert s[..a.Length] == s;
  }

  /** `[...s].sort(...)`: sorts a fresh copy. */
  method SortedCopy<T>(s: seq<T>, key: T -> real) returns (r: seq<T>)
    ensures r == SortDesc(s, key)
    ensures SortedDesc(r, key) && multiset(r) == multiset(s)
  {
    var a := new T[|s|](i requires 0 <= i < |s| => s[i]);
    assert a[..] == s;
    SortInPlace(a, key);
    r := a[..];
    SortDescSorted(s, key);
    SortDescPermutes(s, key);
  }
}
