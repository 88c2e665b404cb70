/** The array operations the front end builds its lists and totals from:
    `filter`, `map`, `reduce` for sums and maxima, `flat` and `slice`. */
module Seqs {

  /** `r` is `s` with some elements deleted, the rest in their original order. */
  predicate IsSubseq<T(==)>(r: seq<T>, s: seq<T>)
    decreases |s|
  {
    r == [] || (s != [] && ((r[0] == s[0] && IsSubseq(r[1..], s[1..])) || IsSubseq(r, s[1..])))
  }

  /** `s.filter(f)`: keeps exactly the elements satisfying `f`, in order. */
  function Filter<T(==)>(f: T -> bool, s: seq<T>): (r: seq<T>)
    ensures |r| <= |s|
    ensures forall i :: 0 <= i < |r| ==> f(r[i])
    ensures forall i :: 0 <= i < |s| && f(s[i]) ==> s[i] in r
    ensures multiset(r) <= multiset(s)
    ensures IsSubseq(r, s)
    decreases |s|
  {
    if s == [] then []
    else if f(s[0]) then
      assert s == [s[0]] + s[1..];
      [s[0]] + Filter(f, s[1..])
    else Filter(f, s[1..])
  }

  /** `filter` keeps every copy of a satisfying element and no copy of any other. */
  lemma {:induction false} FilterCounts<T>(f: T -> bool, s: seq<T>)
    ensures forall x :: multiset(Filter(f, s))[x] == if f(x) then multiset(s)[x] else 0
    decreases |s|
  {
    if s != [] {
      FilterCounts(f, s[1..]);
      assert s == [s[0]] + s[1..];
    }
  }

  /** `s.map(f)`. */
  function Map<T, U>(f: T -> U, s: seq<T>): (r: seq<U>)
    ensures |r| == |s|
    ensures forall i :: 0 <= i < |s| ==> r[i] == f(s[i])
  {
    seq(|s|, i requires 0 <= i < |s| => f(s[i]))
  }

  /** `s.reduce((acc, x) => acc + f(x), 0)`. */
  function Sum<T>(f: T -> int, s: seq<T>): int
    decreases |s|
  {
    if s == [] then 0 else f(s[0]) + Sum(f, s[1..])
  }

  /** `s.reduce((m, x) => Math.max(m, f(x)), m0)`: the running maximum. */
  function FoldMax<T(==)>(m0: int, f: T -> int, s: seq<T>): (r: int)
    ensures r >= m0
    ensures forall i :: 0 <= i < |s| ==> f(s[i]) <= r
    ensures r == m0 || exists i :: 0 <= i < |s| && r == f(s[i])
    decreases |s|
  {
    if s == [] then m0
    else FoldMax(if f(s[0]) > m0 then f(s[0]) else m0, f, s[1..])
  }

  /** `ss.flat()`. */
  function Flatten<T>(ss: seq<seq<T>>): seq<T>
    decreases |ss|
  {
    if ss == [] then [] else ss[0] + Flatten(ss[1..])
  }

  /** `s.slice(0, n)`: the first `n` elements, or all of them when there are fewer. */
  function Take<T>(s: seq<T>, n: nat): (r: seq<T>)
    ensures |r| <= n && |r| <= |s| && (|r| == n || |r| == |s|)
    ensures forall i :: 0 <= i < |r| ==> r[i] == s[i]
  {
    if n <= |s| then s[..n] else s
  }

  lemma {:induction false} SumConcat<T>(f: T -> int, a: seq<T>, b: seq<T>)
    ensures Sum(f, a + b) == Sum(f, a) + Sum(f, b)
    decreases |a|
  {
    if a == [] {
      assert a + b == b;
    } else {
      assert (a + b)[1..] == a[1..] + b;
      SumConcat(f, a[1..], b);
    }
  }

  lemma {:induction false} SumNonNegative<T>(f: T -> int, s: seq<T>)
    requires forall x :: x in s ==> f(x) >= 0
    ensures Sum(f, s) >= 0
    decreases |s|
  {
    if s != [] {
      SumNonNegative(f, s[1..]);
    }
  }

  /** With no negative value, the sum is not negative and no element's value exceeds it. */
  lemma {:induction false} SumBoundsEach<T>(f: T -> int, s: seq<T>)
    ensures (forall i :: 0 <= i < |s| ==> f(s[i]) >= 0) ==>
      Sum(f, s) >= 0 && forall i :: 0 <= i < |s| ==> f(s[i]) <= Sum(f, s)
    decreases |s|
  {
    if s != [] {
      SumBoundsEach(f, s[1..]);
      assert forall i :: 1 <= i < |s| ==> s[i] == s[1..][i - 1];
    }
  }

  /** Splitting a list by a predicate and its negation splits its sum. */
  lemma {:induction false} SumFilterSplit<T>(f: T -> int, p: T -> bool, q: T -> bool, s: seq<T>)
    requires forall x :: q(x) == !p(x)
    ensures Sum(f, s) == Sum(f, Filter(p, s)) + Sum(f, Filter(q, s))
    decreases |s|
  {
    if s != [] {
      SumFilterSplit(f, p, q, s[1..]);
    }
  }

  /** Filtering by a predicate and by its negation partitions the list. */
  lemma {:induction false} FilterPartition<T>(p: T -> bool, q: T -> bool, s: seq<T>)
    requires forall x :: q(x) == !p(x)
    ensures |Filter(p, s)| + |Filter(q, s)| == |s|
    ensures multiset(Filter(p, s)) + multiset(Filter(q, s)) == multiset(s)
    decreases |s|
  {
    if s != [] {
      FilterPartition(p, q, s[1..]);
      assert s == [s[0]] + s[1..];
    }
  }

  /** The summed values of kept elements never exceed the total when no value is negative. */
  lemma {:induction false} SumFilterBounded<T>(f: T -> int, p: T -> bool, s: seq<T>)
    requires forall x :: x in s ==> f(x) >= 0
    ensures 0 <= Sum(f, Filter(p, s)) <= Sum(f, s)
    decreases |s|
  {
    if s != [] {
      SumFilterBounded(f, p, s[1..]);
    }
  }

  /** `flat()` has as many elements as the lists it joins. */
  lemma {:induction false} FlattenLength<T>(ss: seq<seq<T>>)
    ensures |Flatten(ss)| == Sum((s: seq<T>) => |s|, ss)
    decreases |ss|
  {
    if ss != [] {
      FlattenLength(ss[1..]);
    }
  }

  /** Filtering twice with the same predicate changes nothing more. */
  lemma {:induction false} FilterIdempotent<T>(f: T -> bool, s: seq<T>)
    ensures Filter(f, Filter(f, s)) == Filter(f, s)
    decreases |s|
  {
    if s != [] {
      FilterIdempotent(f, s[1..]);
    }
  }

  /** A filter whose predicate holds of every element keeps the whole list. */
  lemma {:induction false} FilterAll<T>(f: T -> bool, s: seq<T>)
    requires forall x :: x in s ==> f(x)
    ensures Filter(f, s) == s
    decreases |s|
  {
    if s != [] {
      FilterAll(f, s[1..]);
    }
  }

  /** Two predicates that agree on the list's elements keep the same elements. */
  lemma {:induction false} FilterCongruent<T>(f: T -> bool, g: T -> bool, s: seq<T>)
    requires forall x :: x in s ==> f(x) == g(x)
    ensures Filter(f, s) == Filter(g, s)
    decreases |s|
  {
    if s != [] {
      FilterCongruent(f, g, s[1..]);
    }
  }

  /** Filtering a filtered list is filtering once by both predicates. */
  lemma {:induction false} FilterCompose<T>(p: T -> bool, q: T -> bool, pq: T -> bool, s: seq<T>)
    requires forall x :: pq(x) == (p(x) && q(x))
    ensures Filter(q, Filter(p, s)) == Filter(pq, s)
    decreases |s|
  {
    if s != [] {
      FilterCompose(p, q, pq, s[1..]);
    }
  }

  /** Filtering a concatenation filters each part. */
  lemma {:induction false} FilterConcat<T>(f: T -> bool, a: seq<T>, b: seq<T>)
    ensures Filter(f, a + b) == Filter(f, a) + Filter(f, b)
    decreases |a|
  {
    if a == [] {
      assert a + b == b;
    } else {
      var ab := a + b;
      assert ab[0] == a[0];
      assert ab[1..] == a[1..] + b;
      FilterConcat(f, a[1..], b);
      if f(a[0]) {
        assert Filter(f, ab) == [a[0]] + (Filter(f, a[1..]) + Filter(f, b));
      }
    }
  }

  /** Summing mapped values is summing the composed function. */
  lemma {:induction false} SumMap<T, U>(f: U -> int, g: T -> U, h: T -> int, s: seq<T>)
    requires forall x :: h(x) == f(g(x))
    ensures Sum(f, Map(g, s)) == Sum(h, s)
    decreases |s|
  {
    if s != [] {
      assert Map(g, s)[1..] == Map(g, s[1..]);
      SumMap(f, g, h, s[1..]);
    }
  }

  /** Summing a joined list is summing the sums of its parts. */
  lemma {:induction false} SumFlatten<T>(f: T -> int, ss: seq<seq<T>>)
    ensures Sum(f, Flatten(ss)) == Sum((s: seq<T>) => Sum(f, s), ss)
    decreases |ss|
  {
    if ss != [] {
      SumConcat(f, ss[0], Flatten(ss[1..]));
      SumFlatten(f, ss[1..]);
    }
  }

  /** `s.filter(y => y !== x)`: every occurrence of `x` removed, the rest kept in order. */
  function Without<T(==)>(s: seq<T>, x: T): (r: seq<T>)
    ensures IsSubseq(r, s)
    ensures x !in r
    ensures forall i :: 0 <= i < |s| && s[i] != x ==> s[i] in r
    ensures multiset(r) == multiset(s)[x := 0]
    decreases |s|
  {
    if s == [] then []
    else if s[0] != x then
      assert s == [s[0]] + s[1..];
      [s[0]] + Without(s[1..], x)
    else
      assert s == [s[0]] + s[1..];
      Without(s[1..], x)
  }

  /** Removing an element that is not there changes nothing. */
  lemma {:induction false} WithoutAbsent<T>(s: seq<T>, x: T)
    requires x !in s
    ensures Without(s, x) == s
    decreases |s|
  {
    if s != [] {
      WithoutAbsent(s[1..], x);
    }
  }

  /** Appending an absent element and then removing it gives back the list. */
  lemma WithoutAppended<T>(s: seq<T>, x: T)
    requires x !in s
    ensures Without(s + [x], x) == s
  {
    WithoutConcat(s, [x], x);
    WithoutAbsent(s, x);
  }

  lemma {:induction false} WithoutConcat<T>(a: seq<T>, b: seq<T>, x: T)
    ensures Without(a + b, x) == Without(a, x) + Without(b, x)
    decreases |a|
  {
    if a == [] {
      assert a + b == b;
    } else {
      assert (a + b)[1..] == a[1..] + b;
      WithoutConcat(a[1..], b, x);
    }
  }

  /** No element occurs twice. */
  predicate Distinct<T(==)>(s: seq<T>)
  {
    forall i, j :: 0 <= i < j < |s| ==> s[i] != s[j]
  }

  /** Removing an element keeps a list free of duplicates. */
  lemma {:induction false} WithoutDistinct<T>(s: seq<T>, x: T)
    requires Distinct(s)
    ensures Distinct(Without(s, x))
    decreases |s|
  {
    if s != [] {
      assert Distinct(s[1..]) by {
        forall i, j | 0 <= i < j < |s[1..]|
          ensures s[1..][i] != s[1..][j]
        {
          assert s[1..][i] == s[i + 1] && s[1..][j] == s[j + 1];
        }
      }
      WithoutDistinct(s[1..], x);
      if s[0] != x {
        var rest := Without(s[1..], x);
        assert s[0] !in s[1..] by {
          forall k | 0 <= k < |s[1..]|
            ensures s[1..][k] != s[0]
          {
            assert s[1..][k] == s[k + 1];
          }
        }
        assert multiset(rest)[s[0]] == 0;
        assert Without(s, x) == [s[0]] + rest;
      }
    }
  }

  /** Filtering mapped elements keeps as many as filtering the originals by
      the composed predicate. */
  lemma {:induction false} FilterMapLength<T, U>(p: U -> bool, g: T -> U, q: T -> bool, s: seq<T>)
    requires forall x :: x in s ==> p(g(x)) == q(x)
    ensures |Filter(p, Map(g, s))| == |Filter(q, s)|
    decreases |s|
  {
    if s != [] {
      FilterMapLength(p, g, q, s[1..]);
      assert Map(g, s)[1..] == Map(g, s[1..]);
    }
  }

  /** A filter keeps the whole list when its predicate holds of every
      element, and nothing when it holds of none. */
  lemma FilterExtremes<T>(f: T -> bool, s: seq<T>)
    ensures (forall i :: 0 <= i < |s| ==> f(s[i])) ==> Filter(f, s) == s
    ensures (forall i :: 0 <= i < |s| ==> !f(s[i])) ==> Filter(f, s) == []
  {
    if forall i :: 0 <= i < |s| ==> f(s[i]) {
      FilterAll(f, s);
    }
    if forall i :: 0 <= i < |s| ==> !f(s[i]) {
      FilterNone(f, s);
    }
  }

  /** A filter whose predicate holds of no element keeps nothing. */
  lemma {:induction false} FilterNone<T>(f: T -> bool, s: seq<T>)
    requires forall x :: x in s ==> !f(x)
    ensures Filter(f, s) == []
    decreases |s|
  {
    if s != [] {
      FilterNone(f, s[1..]);
    }
  }
}
