/** Stable sorting by a comparison relation, as JavaScript's `Array.prototype.sort`
    does it with a consistent comparator, and the code-unit order that `sort()`
    without a comparator uses on strings. */
module Ordering {

  /** `le` is total and transitive: a comparator that never contradicts itself. */
  ghost predicate TotalPreorder<T(!new)>(le: (T, T) -> bool)
  {
    && (forall a, b :: le(a, b) || le(b, a))
    && (forall a, b, c :: le(a, b) && le(b, c) ==> le(a, c))
  }

  ghost predicate Sorted<T>(s: seq<T>, le: (T, T) -> bool)
  {
    forall i, j :: 0 <= i < j < |s| ==> le(s[i], s[j])
  }

  /** Places `x` in front of the first element it is `le` to, so that it goes
      before every element of `s` it compares equal to. */
  function Insert<T>(x: T, s: seq<T>, le: (T, T) -> bool): (r: seq<T>)
    ensures multiset(r) == multiset(s) + multiset{x}
  {
    if s == [] then [x]
    else if le(x, s[0]) then [x] + s
    else
      assert s == [s[0]] + s[1..];
      [s[0]] + Insert(x, s[1..], le)
  }

  /** Stable insertion sort: each element is inserted, from the back, in front of
      the elements it compares equal to, so equal elements keep their order. */
  function SortBy<T>(s: seq<T>, le: (T, T) -> bool): (r: seq<T>)
    ensures multiset(r) == multiset(s)
  {
    if s == [] then []
    else
      assert s == [s[0]] + s[1..];
      Insert(s[0], SortBy(s[1..], le), le)
  }

  lemma {:induction false} InsertSorted<T(!new)>(x: T, s: seq<T>, le: (T, T) -> bool)
    requires TotalPreorder(le)
    requires Sorted(s, le)
    ensures Sorted(Insert(x, s, le), le)
  {
    if s == [] {
    } else if le(x, s[0]) {
    } else {
      InsertSorted(x, s[1..], le);
      var t := Insert(x, s[1..], le);
      forall j | 0 <= j < |t| ensures le(s[0], t[j]) {
        assert t[j] in multiset(t);
        assert t[j] == x || t[j] in s[1..];
      }
    }
  }

  /** The sorted result is ordered by `le` and is a permutation of the input. */
  lemma {:induction false} SortBySorted<T(!new)>(s: seq<T>, le: (T, T) -> bool)
    requires TotalPreorder(le)
    ensures Sorted(SortBy(s, le), le)
    ensures multiset(SortBy(s, le)) == multiset(s)
  {
    if s != [] {
      SortBySorted(s[1..], le);
      InsertSorted(s[0], SortBy(s[1..], le), le);
    }
  }

  ghost predicate Equivalent<T>(le: (T, T) -> bool, a: T, b: T)
  {
    le(a, b) && le(b, a)
  }

  /** The elements of `s` that compare equal to `k`, in their order in `s`. */
  ghost function EqualTo<T>(s: seq<T>, k: T, le: (T, T) -> bool): seq<T>
  {
    if s == [] then []
    else (if Equivalent(le, s[0], k) then [s[0]] else []) + EqualTo(s[1..], k, le)
  }

  /** Every group of equal elements appears in `r` in the order it had in `s`. */
  ghost predicate StablePermutation<T(!new)>(r: seq<T>, s: seq<T>, le: (T, T) -> bool)
  {
    forall k :: EqualTo(r, k, le) == EqualTo(s, k, le)
  }

  lemma EqualToCons<T>(y: T, t: seq<T>, k: T, le: (T, T) -> bool)
    ensures EqualTo([y] + t, k, le) == (if Equivalent(le, y, k) then [y] else []) + EqualTo(t, k, le)
  {
    assert ([y] + t)[1..] == t;
  }

  lemma {:induction false} InsertEqualTo<T(!new)>(x: T, s: seq<T>, k: T, le: (T, T) -> bool)
    requires TotalPreorder(le)
    ensures EqualTo(Insert(x, s, le), k, le)
         == (if Equivalent(le, x, k) then [x] else []) + EqualTo(s, k, le)
  {
    var ex := if Equivalent(le, x, k) then [x] else [];
    if s == [] {
      EqualToCons(x, [], k, le);
      assert [x] + [] == [x];
    } else if le(x, s[0]) {
      EqualToCons(x, s, k, le);
    } else {
      assert s == [s[0]] + s[1..];
      var es := if Equivalent(le, s[0], k) then [s[0]] else [];
      var t := Insert(x, s[1..], le);
      assert Insert(x, s, le) == [s[0]] + t;
      InsertEqualTo(x, s[1..], k, le);
      EqualToCons(s[0], t, k, le);
      EqualToCons(s[0], s[1..], k, le);
      var rest := EqualTo(s[1..], k, le);
      if Equivalent(le, x, k) {
        // x is not le s[0], so s[0] cannot compare equal to k as x does
        assert !le(k, s[0]);
        assert es == [];
        assert es + (ex + rest) == ex + (es + rest);
      } else {
        assert ex + rest == rest;
        assert ex + (es + rest) == es + rest;
      }
    }
  }

  /** Sorting is stable: elements that compare equal keep their input order. */
  lemma {:induction false} SortByStable<T(!new)>(s: seq<T>, le: (T, T) -> bool)
    requires TotalPreorder(le)
    ensures StablePermutation(SortBy(s, le), s, le)
  {
    forall k ensures EqualTo(SortBy(s, le), k, le) == EqualTo(s, k, le) {
      SortByStableAt(s, k, le);
    }
  }

  lemma {:induction false} SortByStableAt<T(!new)>(s: seq<T>, k: T, le: (T, T) -> bool)
    requires TotalPreorder(le)
    ensures EqualTo(SortBy(s, le), k, le) == EqualTo(s, k, le)
  {
    if s != [] {
      SortByStableAt(s[1..], k, le);
      InsertEqualTo(s[0], SortBy(s[1..], le), k, le);
    }
  }

  /** A sorted input is left as it is: sorting is idempotent. */
  lemma {:induction false} SortBySortedIsIdentity<T(!new)>(s: seq<T>, le: (T, T) -> bool)
    requires TotalPreorder(le)
    requires Sorted(s, le)
    ensures SortBy(s, le) == s
  {
    if s != [] {
      assert s == [s[0]] + s[1..];
      assert Sorted(s[1..], le);
      SortBySortedIsIdentity(s[1..], le);
      if |s| > 1 {
        assert le(s[0], s[1..][0]);
      }
    }
  }

  /** Inserting an element that is not present into a duplicate-free sequence keeps it duplicate-free. */
  lemma {:induction false} InsertDistinct<T>(x: T, s: seq<T>, le: (T, T) -> bool)
    requires x !in s
    requires Distinct(s)
    ensures Distinct(Insert(x, s, le))
  {
    if s == [] {
    } else if le(x, s[0]) {
    } else {
      InsertDistinct(x, s[1..], le);
      var t := Insert(x, s[1..], le);
      assert s[0] !in t by {
        assert s[0] !in s[1..] && s[0] != x;
        assert s[0] !in multiset(t);
      }
    }
  }

  lemma {:induction false} SortByDistinct<T>(s: seq<T>, le: (T, T) -> bool)
    requires Distinct(s)
    ensures Distinct(SortBy(s, le))
  {
    if s != [] {
      SortByDistinct(s[1..], le);
      assert s[0] !in SortBy(s[1..], le) by {
        assert s[0] !in s[1..];
        assert s[0] !in multiset(SortBy(s[1..], le));
      }
      InsertDistinct(s[0], SortBy(s[1..], le), le);
    }
  }

  predicate Distinct<T(==)>(s: seq<T>)
  {
    forall i, j :: 0 <= i < j < |s| ==> s[i] != s[j]
  }

  /** `[...new Set(s)]`: each element of `s` exactly once. */
  function Dedup<T(==,!new)>(s: seq<T>): (r: seq<T>)
    ensures Distinct(r)
    ensures forall x :: x in r <==> x in s
  {
    if s == [] then []
    else
      var rest := Dedup(s[..|s| - 1]);
      var last := s[|s| - 1];
      assert s == s[..|s| - 1] + [last];
      if last in rest then rest else rest + [last]
  }

  /** Lexicographic order on strings, comparing character codes: the order
      `Array.prototype.sort()` uses when it is given no comparator. */
  predicate CodeUnitLe(a: string, b: string)
  {
    if |a| == 0 then true
    else if |b| == 0 then false
    else if a[0] != b[0] then a[0] < b[0]
    else CodeUnitLe(a[1..], b[1..])
  }

  lemma {:induction false} CodeUnitLeTotal(a: string, b: string)
    ensures CodeUnitLe(a, b) || CodeUnitLe(b, a)
  {
    if |a| > 0 && |b| > 0 && a[0] == b[0] {
      CodeUnitLeTotal(a[1..], b[1..]);
    }
  }

  lemma {:induction false} CodeUnitLeTransitive(a: string, b: string, c: string)
    requires CodeUnitLe(a, b) && CodeUnitLe(b, c)
    ensures CodeUnitLe(a, c)
  {
    if |a| > 0 && |b| > 0 && |c| > 0 && a[0] == b[0] && b[0] == c[0] {
      CodeUnitLeTransitive(a[1..], b[1..], c[1..]);
    }
  }

  lemma {:induction false} CodeUnitLeAntisymmetric(a: string, b: string)
    requires CodeUnitLe(a, b) && CodeUnitLe(b, a)
    ensures a == b
  {
    if |a| > 0 && |b| > 0 {
      CodeUnitLeAntisymmetric(a[1..], b[1..]);
      assert a == [a[0]] + a[1..] && b == [b[0]] + b[1..];
    }
  }

  /** Code-unit order is a total order on strings. */
  lemma CodeUnitLeIsTotalPreorder()
    ensures TotalPreorder(CodeUnitLe)
    ensures forall a, b :: CodeUnitLe(a, b) && CodeUnitLe(b, a) ==> a == b
  {
    forall a, b ensures CodeUnitLe(a, b) || CodeUnitLe(b, a) {
      CodeUnitLeTotal(a, b);
    }
    forall a, b, c | CodeUnitLe(a, b) && CodeUnitLe(b, c) ensures CodeUnitLe(a, c) {
      CodeUnitLeTransitive(a, b, c);
    }
    forall a, b | CodeUnitLe(a, b) && CodeUnitLe(b, a) ensures a == b {
      CodeUnitLeAntisymmetric(a, b);
    }
  }
}
