/**
 * Array.prototype.sort with a comparator, as a stable insertion sort. `le(x, y)` stands
 * for "comparator(x, y) <= 0": an element moves left only past elements strictly after it,
 * so elements that compare equal keep their order, as ECMAScript 2019 requires.
 */
module Sorting {

  ghost predicate Total<T(!new)>(le: (T, T) -> bool) {
    forall x, y :: le(x, y) || le(y, x)
  }

  ghost predicate Transitive<T(!new)>(le: (T, T) -> bool) {
    forall x, y, z :: le(x, y) && le(y, z) ==> le(x, z)
  }

  /** `s` is ordered by `le`: each element is `le` every element after it. */
  ghost predicate Sorted<T>(s: seq<T>, le: (T, T) -> bool) {
    forall i, j :: 0 <= i < j < |s| ==> le(s[i], s[j])
  }

  /** Inserts `x` into `t`, scanning from the right end, past the elements not `le` x. */
  function Insert<T>(t: seq<T>, x: T, le: (T, T) -> bool): seq<T>
    decreases |t|
  {
    if |t| == 0 then [x]
    else if le(t[|t| - 1], x) then t + [x]
    else Insert(t[..|t| - 1], x, le) + [t[|t| - 1]]
  }

  /** Sorts `s` by inserting its elements one after another, left to right. */
  function InsertionSort<T>(s: seq<T>, le: (T, T) -> bool): seq<T>
    decreases |s|
  {
    if |s| == 0 then [] else Insert(InsertionSort(s[..|s| - 1], le), s[|s| - 1], le)
  }

  lemma {:induction false} InsertPermutes<T>(t: seq<T>, x: T, le: (T, T) -> bool)
    ensures multiset(Insert(t, x, le)) == multiset(t) + multiset{x}
    decreases |t|
  {
    if |t| > 0 && !le(t[|t| - 1], x) {
      InsertPermutes(t[..|t| - 1], x, le);
      assert t == t[..|t| - 1] + [t[|t| - 1]];
    }
  }

  /** Sorting only reorders: the result is a permutation of the input. */
  lemma {:induction false} SortPermutes<T>(s: seq<T>, le: (T, T) -> bool)
    ensures multiset(InsertionSort(s, le)) == multiset(s)
    ensures |InsertionSort(s, le)| == |s|
    decreases |s|
  {
    if |s| > 0 {
      SortPermutes(s[..|s| - 1], le);
      InsertPermutes(InsertionSort(s[..|s| - 1], le), s[|s| - 1], le);
      assert s == s[..|s| - 1] + [s[|s| - 1]];
    }
  }

  /** Appending an element that every element is `le` keeps a sequence ordered. */
  lemma SortedAppend<T>(u: seq<T>, y: T, le: (T, T) -> bool)
    requires Sorted(u, le)
    requires forall k :: 0 <= k < |u| ==> le(u[k], y)
    ensures Sorted(u + [y], le)
  {
    var v := u + [y];
    forall i, j | 0 <= i < j < |v| ensures le(v[i], v[j]) {
      if j < |u| {
        assert v[i] == u[i] && v[j] == u[j];
      } else {
        assert v[i] == u[i] && v[j] == y;
      }
    }
  }

  lemma {:induction false} InsertSorted<T(!new)>(t: seq<T>, x: T, le: (T, T) -> bool)
    requires Total(le) && Transitive(le)
    requires Sorted(t, le)
    ensures Sorted(Insert(t, x, le), le)
    decreases |t|
  {
    if |t| == 0 {
    } else {
      var n := |t| - 1;
      if le(t[n], x) {
        forall k | 0 <= k < |t| ensures le(t[k], x) {
          if k < n {
            assert le(t[k], t[n]);
          }
        }
        SortedAppend(t, x, le);
      } else {
        var u := Insert(t[..n], x, le);
        assert Sorted(t[..n], le);
        InsertSorted(t[..n], x, le);
        InsertPermutes(t[..n], x, le);
        assert le(x, t[n]);
        forall k | 0 <= k < |u| ensures le(u[k], t[n]) {
          assert u[k] in multiset(u);
          if u[k] != x {
            assert u[k] in multiset(t[..n]);
            var m :| 0 <= m < n && t[..n][m] == u[k];
            assert le(t[m], t[n]);
          }
        }
        SortedAppend(u, t[n], le);
      }
    }
  }

  /** Sorting yields a sequence ordered by `le`, when `le` is a total preorder. */
  lemma {:induction false} SortSorted<T(!new)>(s: seq<T>, le: (T, T) -> bool)
    requires Total(le) && Transitive(le)
    ensures Sorted(InsertionSort(s, le), le)
    decreases |s|
  {
    if |s| > 0 {
      SortSorted(s[..|s| - 1], le);
      InsertSorted(InsertionSort(s[..|s| - 1], le), s[|s| - 1], le);
    }
  }

  /** A sequence that is already ordered is left as it is. */
  lemma {:induction false} SortOfSorted<T>(s: seq<T>, le: (T, T) -> bool)
    requires Sorted(s, le)
    ensures InsertionSort(s, le) == s
    decreases |s|
  {
    if |s| > 0 {
      var n := |s| - 1;
      assert Sorted(s[..n], le);
      SortOfSorted(s[..n], le);
      assert s == s[..n] + [s[n]];
    }
  }

  /** Sorting twice is sorting once. */
  lemma SortIdempotent<T(!new)>(s: seq<T>, le: (T, T) -> bool)
    requires Total(le) && Transitive(le)
    ensures InsertionSort(InsertionSort(s, le), le) == InsertionSort(s, le)
  {
    SortSorted(s, le);
    SortOfSorted(InsertionSort(s, le), le);
  }

  /** Moving `x` one place left past `t[j - 1]`, which is not `le` x, does not change the insertion. */
  lemma InsertStepLeft<T>(t: seq<T>, x: T, le: (T, T) -> bool, j: nat)
    requires 0 < j <= |t|
    requires !le(t[j - 1], x)
    ensures Insert(t[..j], x, le) + t[j..] == Insert(t[..j - 1], x, le) + t[j - 1..]
  {
    assert t[..j][..j - 1] == t[..j - 1];
    assert t[j - 1..] == [t[j - 1]] + t[j..];
  }

  /** One pass of the in-place sort: moves a[i] left into the sorted prefix a[..i]. */
  method InsertInPlace<T>(a: array<T>, i: nat, le: (T, T) -> bool)
    requires i < a.Length
    modifies a
    ensures a[..i + 1] == Insert(old(a[..i]), old(a[i]), le)
    ensures a[i + 1..] == old(a[i + 1..])
  {
    ghost var t := a[..i];
    ghost var x := a[i];
    var j := i;
    assert t[..j] == t && t[j..] == [];
    while j > 0 && !le(a[j - 1], a[j])
      invariant 0 <= j <= i
      invariant forall k :: 0 <= k < j ==> a[k] == t[k]
      invariant a[j] == x
      invariant forall k :: j < k <= i ==> a[k] == t[k - 1]
      invariant forall k :: i < k < a.Length ==> a[k] == old(a[k])
      invariant Insert(t, x, le) == Insert(t[..j], x, le) + t[j..]
    {
      InsertStepLeft(t, x, le, j);
      a[j - 1], a[j] := a[j], a[j - 1];
      j := j - 1;
    }
    assert j == 0 || le(t[j - 1], x);
    assert Insert(t[..j], x, le) == t[..j] + [x];
    assert a[..i + 1] == t[..j] + [x] + t[j..];
  }

  /** In-place insertion sort of `a`; the array ends up holding InsertionSort of its old contents. */
  method SortArray<T>(a: array<T>, le: (T, T) -> bool)
    modifies a
    ensures a[..] == InsertionSort(old(a[..]), le)
  {
    ghost var s := a[..];
    var i := 0;
    while i < a.Length
      invariant 0 <= i <= a.Length
      invariant a[..i] == InsertionSort(s[..i], le)
      invariant a[i..] == s[i..]
    {
      assert a[i] == s[i];
      InsertInPlace(a, i, le);
      assert s[..i + 1][..i] == s[..i];
      assert a[i + 1..] == s[i + 1..];
      i := i + 1;
    }
    assert a[..] == a[..a.Length];
    assert s == s[..a.Length];
  }
}
