/**
 * The stable sort behind `List.sort` / `Stream.sorted` with a comparator, stated as an
 * insertion sort over a "sorts no later than" relation.
 */
module Sorting {

  /** `leq(a, b)`: `a` may come before `b`. */
  predicate SortedBy<T>(s: seq<T>, leq: (T, T) -> bool)
  {
    forall i, j :: 0 <= i < j < |s| ==> leq(s[i], s[j])
  }

  ghost predicate TotalPreorder<T(!new)>(leq: (T, T) -> bool)
  {
    (forall a, b :: leq(a, b) || leq(b, a))
    && (forall a, b, c :: leq(a, b) && leq(b, c) ==> leq(a, c))
  }

  /** Places `x` in front of the first element it may precede. */
  function Insert<T>(x: T, s: seq<T>, leq: (T, T) -> bool): (r: seq<T>)
    ensures |r| == |s| + 1
    ensures multiset(r) == multiset(s) + multiset{x}
  {
    if s == [] then [x]
    else if leq(x, s[0]) then [x] + s
    else
      assert s == [s[0]] + s[1..];
      [s[0]] + Insert(x, s[1..], leq)
  }

  function SortBy<T>(s: seq<T>, leq: (T, T) -> bool): (r: seq<T>)
    ensures |r| == |s|
    ensures multiset(r) == multiset(s)
  {
    if s == [] then []
    else
      assert s == [s[0]] + s[1..];
      Insert(s[0], SortBy(s[1..], leq), leq)
  }

  /** Insertion adds `x` and nothing else. */
  lemma InsertMembers<T>(x: T, s: seq<T>, leq: (T, T) -> bool)
    ensures forall y :: y in Insert(x, s, leq) ==> y == x || y in s
  {
    forall y | y in Insert(x, s, leq) ensures y == x || y in s {
      assert y in multiset(Insert(x, s, leq));
    }
  }

  lemma {:induction false} InsertSorted<T(!new)>(x: T, s: seq<T>, leq: (T, T) -> bool)
    requires TotalPreorder(leq)
    requires SortedBy(s, leq)
    ensures SortedBy(Insert(x, s, leq), leq)
  {
    if s != [] && !leq(x, s[0]) {
      var tail := s[1..];
      var rest := Insert(x, tail, leq);
      InsertSorted(x, tail, leq);
      InsertMembers(x, tail, leq);
      assert leq(s[0], x);
      forall k | 0 <= k < |rest|
        ensures leq(s[0], rest[k])
      {
        assert rest[k] in rest;
        if rest[k] != x {
          var m :| 0 <= m < |tail| && tail[m] == rest[k];
          assert s[m + 1] == rest[k];
        }
      }
      assert Insert(x, s, leq) == [s[0]] + rest;
    }
  }

  /** The sort returns its input reordered by `leq`. */
  lemma {:induction false} SortBySorted<T(!new)>(s: seq<T>, leq: (T, T) -> bool)
    requires TotalPreorder(leq)
    ensures SortedBy(SortBy(s, leq), leq)
  {
    if s != [] {
      SortBySorted(s[1..], leq);
      InsertSorted(s[0], SortBy(s[1..], leq), leq);
    }
  }

  /** `leq` orders no two different elements of `s` both ways. */
  ghost predicate AntisymmetricOn<T>(s: seq<T>, leq: (T, T) -> bool)
  {
    forall x, y :: x in s && y in s && leq(x, y) && leq(y, x) ==> x == y
  }

  /** Two sorted arrangements of the same elements are one, when no two elements tie. */
  lemma {:induction false} SortedUnique<T>(s: seq<T>, t: seq<T>, leq: (T, T) -> bool)
    requires SortedBy(s, leq) && SortedBy(t, leq)
    requires multiset(s) == multiset(t)
    requires AntisymmetricOn(s, leq)
    ensures s == t
  {
    assert |s| == |multiset(s)| == |t|;
    if s != [] {
      SortedHeadsEqual(s, t, leq);
      SortedTails(s, t, leq);
      SortedUnique(s[1..], t[1..], leq);
      assert s == [s[0]] + s[1..] && t == [t[0]] + t[1..];
    }
  }

  lemma SortedHeadsEqual<T>(s: seq<T>, t: seq<T>, leq: (T, T) -> bool)
    requires s != [] && t != []
    requires SortedBy(s, leq) && SortedBy(t, leq)
    requires multiset(s) == multiset(t)
    requires AntisymmetricOn(s, leq)
    ensures s[0] == t[0]
  {
    assert s[0] in multiset(t) && t[0] in multiset(s);
    var j :| 0 <= j < |t| && t[j] == s[0];
    var k :| 0 <= k < |s| && s[k] == t[0];
    if j != 0 && k != 0 {
      assert leq(t[0], t[j]) && leq(s[0], s[k]);
    }
  }

  /** Dropping an equal head keeps the tails sorted, equal as multisets and tie-free. */
  lemma SortedTails<T>(s: seq<T>, t: seq<T>, leq: (T, T) -> bool)
    requires s != [] && t != [] && s[0] == t[0]
    requires SortedBy(s, leq) && SortedBy(t, leq)
    requires multiset(s) == multiset(t)
    requires AntisymmetricOn(s, leq)
    ensures SortedBy(s[1..], leq) && SortedBy(t[1..], leq)
    ensures multiset(s[1..]) == multiset(t[1..])
    ensures AntisymmetricOn(s[1..], leq)
  {
    TailSorted(s, leq);
    TailSorted(t, leq);
    TailMultiset(s);
    TailMultiset(t);
    assert forall x :: x in s[1..] ==> x in s;
  }

  lemma TailSorted<T>(s: seq<T>, leq: (T, T) -> bool)
    requires s != [] && SortedBy(s, leq)
    ensures SortedBy(s[1..], leq)
  {
    forall i, j | 0 <= i < j < |s[1..]|
      ensures leq(s[1..][i], s[1..][j])
    {
      assert s[1..][i] == s[i + 1] && s[1..][j] == s[j + 1];
    }
  }

  lemma TailMultiset<T>(s: seq<T>)
    requires s != []
    ensures multiset(s[1..]) == multiset(s) - multiset{s[0]}
  {
    assert s == [s[0]] + s[1..];
  }

  /** The first `n` elements, or all of them when there are fewer (`Stream.limit`). */
  function Take<T>(s: seq<T>, n: nat): (r: seq<T>)
    ensures |r| == if n < |s| then n else |s|
    ensures r == s[..|r|]
  {
    if n < |s| then s[..n] else s
  }

  /** A prefix holds no element more often than the whole. */
  lemma PrefixWithin<T>(s: seq<T>, k: nat)
    requires k <= |s|
    ensures multiset(s[..k]) <= multiset(s)
  {
    assert s == s[..k] + s[k..];
  }

  /**
   * The first `n` of a sorted copy are sorted, come from the input, and every input element
   * left out is preceded by all `n` of them.
   */
  lemma TopOfSorted<T(!new)>(s: seq<T>, leq: (T, T) -> bool, n: nat)
    requires TotalPreorder(leq)
    ensures var r := Take(SortBy(s, leq), n);
      SortedBy(r, leq)
      && multiset(r) <= multiset(s)
      && (forall i :: 0 <= i < |r| ==> r[i] in s)
      && (forall x :: x in s ==> x in r || (|r| == n && forall i :: 0 <= i < n ==> leq(r[i], x)))
  {
    var sorted := SortBy(s, leq);
    var r := Take(sorted, n);
    SortBySorted(s, leq);
    PrefixWithin(sorted, |r|);
    forall i | 0 <= i < |r| ensures r[i] in s {
      assert r[i] in multiset(r);
    }
    forall x | x in s
      ensures x in r || (|r| == n && forall i :: 0 <= i < n ==> leq(r[i], x))
    {
      assert x in multiset(sorted);
      var m :| 0 <= m < |sorted| && sorted[m] == x;
      if m < n {
        assert r[m] == x;
      } else {
        forall i | 0 <= i < n ensures leq(r[i], x) {
          assert r[i] == sorted[i];
        }
      }
    }
  }

  /** `Stream.filter`, keeping the order. */
  function Filter<T>(s: seq<T>, keep: T -> bool): (r: seq<T>)
    ensures |r| <= |s|
    ensures forall i :: 0 <= i < |r| ==> r[i] in s && keep(r[i])
    ensures forall i :: 0 <= i < |s| && keep(s[i]) ==> s[i] in r
    ensures multiset(r) <= multiset(s)
  {
    if s == [] then []
    else
      assert s == [s[0]] + s[1..];
      (if keep(s[0]) then [s[0]] else []) + Filter(s[1..], keep)
  }

  /** Every kept element keeps all its occurrences, every other one loses them all. */
  lemma {:induction false} FilterCount<T>(s: seq<T>, keep: T -> bool, x: T)
    ensures multiset(Filter(s, keep))[x] == if keep(x) then multiset(s)[x] else 0
  {
    if s != [] {
      FilterCount(s[1..], keep, x);
      assert s == [s[0]] + s[1..];
      FilterCons(s[0], s[1..], keep);
    }
  }

  /** Filtering one element in front of `s`. */
  lemma FilterCons<T>(y: T, s: seq<T>, keep: T -> bool)
    ensures Filter([y] + s, keep) == (if keep(y) then [y] else []) + Filter(s, keep)
  {
    assert ([y] + s)[0] == y && ([y] + s)[1..] == s;
  }

  /** Filtering distributes over concatenation, so the kept elements stay in input order. */
  lemma {:induction false} FilterAppend<T>(s: seq<T>, t: seq<T>, keep: T -> bool)
    ensures Filter(s + t, keep) == Filter(s, keep) + Filter(t, keep)
  {
    if s == [] {
      assert s + t == t;
    } else {
      assert (s + t)[0] == s[0] && (s + t)[1..] == s[1..] + t;
      FilterAppend(s[1..], t, keep);
    }
  }

  /** The elements that tie with `a` under `leq`. */
  function TiedWith<T>(leq: (T, T) -> bool, a: T): T -> bool
  {
    x => leq(x, a) && leq(a, x)
  }

  /** Two elements that tie with the same `a` are ordered both ways. */
  lemma TiesAreOrdered<T(!new)>(leq: (T, T) -> bool, a: T, x: T, y: T)
    requires TotalPreorder(leq)
    ensures TiedWith(leq, a)(x) && TiedWith(leq, a)(y) ==> leq(x, y)
  {
  }

  /** Insertion never moves `x` past an element it ties with. */
  lemma {:induction false} InsertKeepsTies<T(!new)>(x: T, s: seq<T>, leq: (T, T) -> bool, a: T)
    requires TotalPreorder(leq)
    ensures var tied := TiedWith(leq, a);
      Filter(Insert(x, s, leq), tied) == (if tied(x) then [x] else []) + Filter(s, tied)
  {
    var tied := TiedWith(leq, a);
    if s == [] {
      FilterCons(x, [], tied);
      assert Insert(x, s, leq) == [x] + [];
    } else if leq(x, s[0]) {
      FilterCons(x, s, tied);
    } else {
      var y, rest := s[0], Insert(x, s[1..], leq);
      assert Insert(x, s, leq) == [y] + rest;
      assert s == [y] + s[1..];
      InsertKeepsTies(x, s[1..], leq, a);
      TiesAreOrdered(leq, a, x, y);
      FilterCons(y, rest, tied);
      FilterCons(y, s[1..], tied);
      SwapUntied(if tied(y) then [y] else [], if tied(x) then [x] else [], Filter(s[1..], tied));
    }
  }

  /** Two parts of which at most one is non-empty may swap places. */
  lemma SwapUntied<T>(first: seq<T>, second: seq<T>, tail: seq<T>)
    requires first == [] || second == []
    ensures first + (second + tail) == second + (first + tail)
  {
    if first == [] {
      assert first + (second + tail) == second + tail == second + (first + tail);
    } else {
      assert first + (second + tail) == first + tail == second + (first + tail);
    }
  }

  /**
   * The sort is stable: the elements that tie with any `a` come out in the order they went
   * in, as with Java's `List.sort`.
   */
  lemma {:induction false} SortByStable<T(!new)>(s: seq<T>, leq: (T, T) -> bool, a: T)
    requires TotalPreorder(leq)
    ensures Filter(SortBy(s, leq), TiedWith(leq, a)) == Filter(s, TiedWith(leq, a))
  {
    if s != [] {
      SortByStable(s[1..], leq, a);
      InsertKeepsTies(s[0], SortBy(s[1..], leq), leq, a);
    }
  }
}
