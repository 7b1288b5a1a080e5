/**
 * The Python built-ins on lists the pipeline relies on: the `<` order on
 * strings, `sorted(...)` / `list.sort(key=..., reverse=...)` (a stable sort),
 * `set(...)`, `min` / `max` of strings, `sum` and slicing `xs[:n]`.
 */
module Collections {

  // ---------------------------------------------------------------------------
  // Strings compared as Python compares them: lexicographically by code point.

  predicate StrLess(a: string, b: string) {
    if a == [] then b != []
    else if b == [] then false
    else if a[0] != b[0] then a[0] < b[0]
    else StrLess(a[1..], b[1..])
  }

  predicate StrLessEq(a: string, b: string) {
    a == b || StrLess(a, b)
  }

  lemma {:induction false} StrLessIrreflexive(a: string)
    ensures !StrLess(a, a)
  {
    if a != [] {
      StrLessIrreflexive(a[1..]);
    }
  }

  lemma {:induction false} StrLessTransitive(a: string, b: string, c: string)
    requires StrLess(a, b) && StrLess(b, c)
    ensures StrLess(a, c)
  {
    if a != [] && b != [] && c != [] && a[0] == b[0] && b[0] == c[0] {
      StrLessTransitive(a[1..], b[1..], c[1..]);
    }
  }

  lemma {:induction false} StrLessTotal(a: string, b: string)
    ensures a == b || StrLess(a, b) || StrLess(b, a)
  {
    if a != [] && b != [] && a[0] == b[0] {
      StrLessTotal(a[1..], b[1..]);
      if a[1..] == b[1..] {
        assert a == [a[0]] + a[1..] && b == [b[0]] + b[1..];
      }
    }
  }

  lemma StrLessAsymmetric(a: string, b: string)
    ensures !(StrLess(a, b) && StrLess(b, a))
  {
    if StrLess(a, b) && StrLess(b, a) {
      StrLessTransitive(a, b, a);
      StrLessIrreflexive(a);
    }
  }

  predicate Distinct<T(==)>(s: seq<T>) {
    forall i, j :: 0 <= i < j < |s| ==> s[i] != s[j]
  }

  predicate StrictlyAscending(s: seq<string>) {
    forall i, j :: 0 <= i < j < |s| ==> StrLess(s[i], s[j])
  }

  /** Inserts `x` before the first element that is not smaller than it. */
  function InsertString(x: string, s: seq<string>): (r: seq<string>)
    ensures multiset(r) == multiset(s) + multiset{x}
  {
    if s == [] then [x]
    else if StrLess(s[0], x) then
      assert s == [s[0]] + s[1..];
      [s[0]] + InsertString(x, s[1..])
    else [x] + s
  }

  /** `sorted(s)` on strings. */
  function SortStrings(s: seq<string>): (r: seq<string>)
    ensures multiset(r) == multiset(s)
  {
    if s == [] then []
    else
      assert s == [s[0]] + s[1..];
      InsertString(s[0], SortStrings(s[1..]))
  }

  lemma {:induction false} InsertStringAscending(x: string, s: seq<string>)
    requires StrictlyAscending(s) && x !in s
    ensures StrictlyAscending(InsertString(x, s))
  {
    if s != [] {
      if StrLess(s[0], x) {
        var t := InsertString(x, s[1..]);
        InsertStringAscending(x, s[1..]);
        forall k | 0 <= k < |t|
          ensures StrLess(s[0], t[k])
        {
          assert t[k] in multiset(t);
          if t[k] != x {
            assert t[k] in s[1..];
            var j :| 0 <= j < |s[1..]| && s[1..][j] == t[k];
            assert s[j + 1] == t[k];
          }
        }
      } else {
        StrLessTotal(s[0], x);
        forall k | 0 <= k < |s|
          ensures StrLess(x, s[k])
        {
          if k > 0 {
            StrLessTransitive(x, s[0], s[k]);
          }
        }
      }
    }
  }

  /** Sorting distinct strings gives them in strictly ascending order. */
  lemma {:induction false} SortStringsAscending(s: seq<string>)
    requires Distinct(s)
    ensures StrictlyAscending(SortStrings(s))
    ensures forall x :: x in SortStrings(s) <==> x in s
    ensures |SortStrings(s)| == |s|
  {
    if s != [] {
      SortStringsAscending(s[1..]);
      assert s[0] !in s[1..];
      InsertStringAscending(s[0], SortStrings(s[1..]));
    }
    var r := SortStrings(s);
    assert |r| == |multiset(r)| == |multiset(s)| == |s|;
    forall x
      ensures x in r <==> x in s
    {
      assert x in r <==> x in multiset(r);
    }
  }

  /** `set(s)` as a sequence: the first occurrence of each element, in order. */
  function Dedup<T(==)>(s: seq<T>): (r: seq<T>)
    ensures Distinct(r)
    ensures forall i :: 0 <= i < |r| ==> r[i] in s
    ensures forall i :: 0 <= i < |s| ==> s[i] in r
    ensures |r| <= |s|
  {
    if s == [] then []
    else
      var d := Dedup(s[..|s| - 1]);
      assert s == s[..|s| - 1] + [s[|s| - 1]];
      if s[|s| - 1] in d then d else d + [s[|s| - 1]]
  }

  lemma StrLessEqTransitive(a: string, b: string, c: string)
    requires StrLessEq(a, b) && StrLessEq(b, c)
    ensures StrLessEq(a, c)
  {
    if a != b && b != c {
      StrLessTransitive(a, b, c);
    }
  }

  lemma LowerBoundExtend(m: string, y: string, s: seq<string>)
    requires forall x :: x in s ==> StrLessEq(m, x)
    requires StrLessEq(y, m)
    ensures forall x :: x in s ==> StrLessEq(y, x)
  {
    forall x | x in s
      ensures StrLessEq(y, x)
    {
      StrLessEqTransitive(y, m, x);
    }
  }

  lemma UpperBoundExtend(m: string, y: string, s: seq<string>)
    requires forall x :: x in s ==> StrLessEq(x, m)
    requires StrLessEq(m, y)
    ensures forall x :: x in s ==> StrLessEq(x, y)
  {
    forall x | x in s
      ensures StrLessEq(x, y)
    {
      StrLessEqTransitive(x, m, y);
    }
  }

  /** `min(s)` on a non-empty list of strings. */
  function MinString(s: seq<string>): (r: string)
    requires s != []
    ensures r in s && forall x :: x in s ==> StrLessEq(r, x)
  {
    if |s| == 1 then s[0]
    else
      var m := MinString(s[1..]);
      assert s == [s[0]] + s[1..];
      StrLessTotal(m, s[0]);
      if StrLess(m, s[0]) then m
      else
        LowerBoundExtend(m, s[0], s[1..]);
        s[0]
  }

  /** `max(s)` on a non-empty list of strings. */
  function MaxString(s: seq<string>): (r: string)
    requires s != []
    ensures r in s && forall x :: x in s ==> StrLessEq(x, r)
  {
    if |s| == 1 then s[0]
    else
      var m := MaxString(s[1..]);
      assert s == [s[0]] + s[1..];
      StrLessTotal(m, s[0]);
      if StrLess(s[0], m) then m
      else
        UpperBoundExtend(m, s[0], s[1..]);
        s[0]
  }

  // ---------------------------------------------------------------------------
  // `sorted(xs, key=score, reverse=desc)` and `xs.sort(key=score, reverse=desc)`.
  // Python's sort is stable, also with reverse=True: elements with equal keys
  // keep their relative order.

  /** `a` must come strictly before `b` in the sorted output. */
  predicate Precedes<T>(a: T, b: T, score: T -> real, desc: bool) {
    if desc then score(a) > score(b) else score(a) < score(b)
  }

  predicate SortedBy<T>(s: seq<T>, score: T -> real, desc: bool) {
    forall i, j :: 0 <= i < j < |s| ==> !Precedes(s[j], s[i], score, desc)
  }

  /** Inserts `x` before the first element that does not strictly precede it. */
  function InsertBy<T(==)>(x: T, s: seq<T>, score: T -> real, desc: bool): (r: seq<T>)
    ensures |r| == |s| + 1
    ensures multiset(r) == multiset(s) + multiset{x}
  {
    if s == [] then [x]
    else if Precedes(s[0], x, score, desc) then
      assert s == [s[0]] + s[1..];
      [s[0]] + InsertBy(x, s[1..], score, desc)
    else [x] + s
  }

  /** The stable sort: insertion from the back, each element placed before its equals. */
  function SortBy<T(==)>(s: seq<T>, score: T -> real, desc: bool): (r: seq<T>)
    ensures |r| == |s|
    ensures multiset(r) == multiset(s)
  {
    if s == [] then []
    else
      assert s == [s[0]] + s[1..];
      InsertBy(s[0], SortBy(s[1..], score, desc), score, desc)
  }

  /** Sorting neither adds nor drops an element. */
  lemma SortByMembers<T>(s: seq<T>, score: T -> real, desc: bool)
    ensures forall x :: x in SortBy(s, score, desc) <==> x in s
  {
    var r := SortBy(s, score, desc);
    forall x
      ensures x in r <==> x in s
    {
      assert x in r <==> x in multiset(r);
      assert x in s <==> x in multiset(s);
    }
  }

  /** The elements of `s` whose key is `v`, in their order in `s`. */
  function WithScore<T>(s: seq<T>, score: T -> real, v: real): seq<T> {
    if s == [] then []
    else (if score(s[0]) == v then [s[0]] else []) + WithScore(s[1..], score, v)
  }

  lemma {:induction false} InsertByBound<T>(x: T, s: seq<T>, score: T -> real, desc: bool, y: T)
    requires forall k :: 0 <= k < |s| ==> !Precedes(s[k], y, score, desc)
    requires !Precedes(x, y, score, desc)
    ensures forall k :: 0 <= k < |s| + 1 ==> !Precedes(InsertBy(x, s, score, desc)[k], y, score, desc)
  {
    if s != [] && Precedes(s[0], x, score, desc) {
      InsertByBound(x, s[1..], score, desc, y);
    }
  }

  lemma {:induction false} InsertBySorted<T>(x: T, s: seq<T>, score: T -> real, desc: bool)
    requires SortedBy(s, score, desc)
    ensures SortedBy(InsertBy(x, s, score, desc), score, desc)
  {
    if s != [] {
      if Precedes(s[0], x, score, desc) {
        InsertBySorted(x, s[1..], score, desc);
        InsertByBound(x, s[1..], score, desc, s[0]);
      }
    }
  }

  /** The stable sort orders its output by key. */
  lemma {:induction false} SortBySorted<T>(s: seq<T>, score: T -> real, desc: bool)
    ensures SortedBy(SortBy(s, score, desc), score, desc)
  {
    if s != [] {
      SortBySorted(s[1..], score, desc);
      InsertBySorted(s[0], SortBy(s[1..], score, desc), score, desc);
    }
  }

  /** `WithScore` of a sequence with a known first element. */
  lemma WithScoreCons<T>(a: T, rest: seq<T>, score: T -> real, v: real)
    ensures WithScore([a] + rest, score, v) == (if score(a) == v then [a] else []) + WithScore(rest, score, v)
  {
    assert ([a] + rest)[0] == a && ([a] + rest)[1..] == rest;
  }

  lemma {:induction false} InsertByStable<T>(x: T, s: seq<T>, score: T -> real, desc: bool, v: real)
    ensures WithScore(InsertBy(x, s, score, desc), score, v)
         == (if score(x) == v then [x] else []) + WithScore(s, score, v)
  {
    if s == [] {
      WithScoreCons(x, [], score, v);
    } else if Precedes(s[0], x, score, desc) {
      InsertByStable(x, s[1..], score, desc, v);
      InsertByStableStep(x, s, score, desc, v);
    } else {
      WithScoreCons(x, s, score, v);
    }
  }

  /** The step of `InsertByStable` when `x` goes past the first element. */
  lemma InsertByStableStep<T>(x: T, s: seq<T>, score: T -> real, desc: bool, v: real)
    requires s != [] && Precedes(s[0], x, score, desc)
    requires WithScore(InsertBy(x, s[1..], score, desc), score, v)
          == (if score(x) == v then [x] else []) + WithScore(s[1..], score, v)
    ensures WithScore(InsertBy(x, s, score, desc), score, v)
         == (if score(x) == v then [x] else []) + WithScore(s, score, v)
  {
    var r' := InsertBy(x, s[1..], score, desc);
    var rest := WithScore(s[1..], score, v);
    assert InsertBy(x, s, score, desc) == [s[0]] + r';
    WithScoreCons(s[0], r', score, v);
    assert [s[0]] + s[1..] == s;
    WithScoreCons(s[0], s[1..], score, v);
    if score(x) == v {
      assert score(s[0]) != v;
      assert WithScore(r', score, v) == [x] + rest;
    } else if score(s[0]) == v {
      assert WithScore(r', score, v) == rest;
      assert WithScore(s, score, v) == [s[0]] + rest;
    } else {
      assert WithScore(r', score, v) == rest;
    }
  }

  /**
   * Stability: for every key value, the elements carrying it appear in the
   * sorted output in the same order as in the input.
   */
  lemma {:induction false} SortByStable<T>(s: seq<T>, score: T -> real, desc: bool, v: real)
    ensures WithScore(SortBy(s, score, desc), score, v) == WithScore(s, score, v)
  {
    if s != [] {
      SortByStable(s[1..], score, desc, v);
      InsertByStable(s[0], SortBy(s[1..], score, desc), score, desc, v);
    }
  }

  // ---------------------------------------------------------------------------
  // sum(...) and slicing.

  function Sum<T>(s: seq<T>, f: T -> real): real {
    if s == [] then 0.0 else f(s[0]) + Sum(s[1..], f)
  }

  lemma {:induction false} SumAppend<T>(s: seq<T>, x: T, f: T -> real)
    ensures Sum(s + [x], f) == Sum(s, f) + f(x)
  {
    if s != [] {
      assert (s + [x])[1..] == s[1..] + [x];
      SumAppend(s[1..], x, f);
    }
  }

  lemma {:induction false} SumInsertBy<T>(x: T, s: seq<T>, score: T -> real, desc: bool, f: T -> real)
    ensures Sum(InsertBy(x, s, score, desc), f) == f(x) + Sum(s, f)
  {
    if s != [] {
      if Precedes(s[0], x, score, desc) {
        SumInsertBy(x, s[1..], score, desc, f);
        var r := InsertBy(x, s, score, desc);
        assert r[1..] == InsertBy(x, s[1..], score, desc);
      } else {
        assert ([x] + s)[1..] == s;
      }
    }
  }

  /** Sorting does not change a sum. */
  lemma {:induction false} SumSortBy<T>(s: seq<T>, score: T -> real, desc: bool, f: T -> real)
    ensures Sum(SortBy(s, score, desc), f) == Sum(s, f)
  {
    if s != [] {
      SumSortBy(s[1..], score, desc, f);
      SumInsertBy(s[0], SortBy(s[1..], score, desc), score, desc, f);
    }
  }

  /** One more element of a prefix. */
  lemma TakeOneMore<T>(s: seq<T>, k: nat)
    requires k < |s|
    ensures s[..k + 1] == s[..k] + [s[k]]
  {
  }

  /** `s[:n]`, including Python's meaning of a negative `n` (drop that many from the end). */
  function Prefix<T>(s: seq<T>, n: int): (r: seq<T>)
    ensures |r| == if n >= 0 then (if n <= |s| then n else |s|) else (if |s| + n > 0 then |s| + n else 0)
    ensures r == s[..|r|]
  {
    if n >= 0 then (if n <= |s| then s[..n] else s)
    else (if |s| + n > 0 then s[..|s| + n] else [])
  }

  /**
   * The first `n` elements of a sort: themselves sorted, all taken from the
   * input, and no element left out strictly precedes one taken.
   */
  lemma TopOfSorted<T>(all: seq<T>, score: T -> real, desc: bool, n: int)
    ensures var top := Prefix(SortBy(all, score, desc), n);
            && SortedBy(top, score, desc)
            && (forall x :: x in top ==> x in all)
            && (forall i, x :: 0 <= i < |top| && x in all && x !in top ==> !Precedes(x, top[i], score, desc))
  {
    var sorted := SortBy(all, score, desc);
    var top := Prefix(sorted, n);
    SortBySorted(all, score, desc);
    forall x | x in top
      ensures x in all
    {
      assert x in multiset(sorted);
    }
    forall i, x | 0 <= i < |top| && x in all && x !in top
      ensures !Precedes(x, top[i], score, desc)
    {
      assert x in multiset(sorted);
      var k :| 0 <= k < |sorted| && sorted[k] == x;
      assert top[i] == sorted[i];
    }
  }
}
