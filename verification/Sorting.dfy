/** Stable sorting and filtering of sequences, as Python's `sorted` and list comprehensions do it. */
module Sorting {

  ghost predicate TotalPreorder<T(!new)>(le: (T, T) -> bool) {
    && (forall x, y :: le(x, y) || le(y, x))
    && (forall x, y, z :: le(x, y) && le(y, z) ==> le(x, z))
  }

  ghost predicate SortedBy<T>(le: (T, T) -> bool, s: seq<T>) {
    forall i, j :: 0 <= i < j < |s| ==> le(s[i], s[j])
  }

  /** Places `x` behind every element that may precede it, so equal elements keep their order. */
  function Insert<T>(le: (T, T) -> bool, s: seq<T>, x: T): (r: seq<T>)
    ensures |r| == |s| + 1
  {
    if s == [] then [x]
    else if le(s[|s| - 1], x) then s + [x]
    else Insert(le, s[..|s| - 1], x) + [s[|s| - 1]]
  }

  function Sort<T>(le: (T, T) -> bool, s: seq<T>): (r: seq<T>)
    ensures |r| == |s|
  {
    if s == [] then [] else Insert(le, Sort(le, s[..|s| - 1]), s[|s| - 1])
  }

  function Filter<T>(p: T -> bool, s: seq<T>): (r: seq<T>)
    ensures |r| <= |s|
  {
    if s == [] then []
    else
      var last := s[|s| - 1];
      Filter(p, s[..|s| - 1]) + (if p(last) then [last] else [])
  }

  lemma {:induction false} FilterMember<T>(p: T -> bool, s: seq<T>, x: T)
    ensures x in Filter(p, s) <==> x in s && p(x)
  {
    if s != [] {
      FilterMember(p, s[..|s| - 1], x);
      assert s == s[..|s| - 1] + [s[|s| - 1]];
    }
  }

  lemma {:induction false} FilterConcat<T>(p: T -> bool, a: seq<T>, b: seq<T>)
    ensures Filter(p, a + b) == Filter(p, a) + Filter(p, b)
    decreases |b|
  {
    if b == [] {
      assert a + b == a;
    } else {
      assert (a + b)[..|a + b| - 1] == a + b[..|b| - 1];
      FilterConcat(p, a, b[..|b| - 1]);
    }
  }

  /** Filters that agree on the elements keep the same ones. */
  lemma {:induction false} FilterCongruent<T>(p: T -> bool, q: T -> bool, s: seq<T>)
    requires forall x :: x in s ==> p(x) == q(x)
    ensures Filter(p, s) == Filter(q, s)
  {
    if s != [] {
      assert forall x :: x in s[..|s| - 1] ==> x in s;
      FilterCongruent(p, q, s[..|s| - 1]);
      assert s[|s| - 1] in s;
    }
  }

  lemma {:induction false} FilterAll<T>(p: T -> bool, s: seq<T>)
    requires forall x :: x in s ==> p(x)
    ensures Filter(p, s) == s
  {
    if s != [] {
      assert s == s[..|s| - 1] + [s[|s| - 1]];
      FilterAll(p, s[..|s| - 1]);
    }
  }

  lemma {:induction false} FilterNone<T>(p: T -> bool, s: seq<T>)
    requires forall x :: x in s ==> !p(x)
    ensures Filter(p, s) == []
  {
    if s != [] {
      assert s == s[..|s| - 1] + [s[|s| - 1]];
      FilterNone(p, s[..|s| - 1]);
    }
  }

  /** Filtering twice is filtering by both conditions. */
  lemma {:induction false} FilterTwice<T>(p: T -> bool, q: T -> bool, both: T -> bool, s: seq<T>)
    requires forall x :: x in s ==> (both(x) <==> p(x) && q(x))
    ensures Filter(q, Filter(p, s)) == Filter(both, s)
  {
    if s != [] {
      var init, last := s[..|s| - 1], s[|s| - 1];
      assert forall x :: x in init ==> x in s;
      assert last in s;
      FilterTwice(p, q, both, init);
      FilterConcat(q, Filter(p, init), if p(last) then [last] else []);
      assert [last][..0] == [];
    }
  }

  lemma {:induction false} InsertPermutes<T>(le: (T, T) -> bool, s: seq<T>, x: T)
    ensures multiset(Insert(le, s, x)) == multiset(s) + multiset{x}
  {
    if s != [] && !le(s[|s| - 1], x) {
      InsertPermutes(le, s[..|s| - 1], x);
      assert s == s[..|s| - 1] + [s[|s| - 1]];
    }
  }

  lemma {:induction false} SortPermutes<T>(le: (T, T) -> bool, s: seq<T>)
    ensures multiset(Sort(le, s)) == multiset(s)
  {
    if s != [] {
      SortPermutes(le, s[..|s| - 1]);
      InsertPermutes(le, Sort(le, s[..|s| - 1]), s[|s| - 1]);
      assert s == s[..|s| - 1] + [s[|s| - 1]];
    }
  }

  lemma SortMember<T>(le: (T, T) -> bool, s: seq<T>, x: T)
    ensures x in Sort(le, s) <==> x in s
  {
    SortPermutes(le, s);
    assert x in multiset(Sort(le, s)) <==> x in multiset(s);
  }

  lemma {:induction false} InsertSorted<T(!new)>(le: (T, T) -> bool, s: seq<T>, x: T)
    requires TotalPreorder(le) && SortedBy(le, s)
    ensures SortedBy(le, Insert(le, s, x))
  {
    if s != [] {
      var init, last := s[..|s| - 1], s[|s| - 1];
      if le(last, x) {
        assert forall i :: 0 <= i < |s| - 1 ==> le(s[i], last);
      } else {
        InsertSorted(le, init, x);
        InsertPermutes(le, init, x);
        var r := Insert(le, init, x);
        forall i | 0 <= i < |r|
          ensures le(r[i], last)
        {
          assert r[i] in multiset(r);
          assert r[i] in init || r[i] == x;
        }
      }
    }
  }

  lemma {:induction false} SortSorts<T(!new)>(le: (T, T) -> bool, s: seq<T>)
    requires TotalPreorder(le)
    ensures SortedBy(le, Sort(le, s))
  {
    if s != [] {
      SortSorts(le, s[..|s| - 1]);
      InsertSorted(le, Sort(le, s[..|s| - 1]), s[|s| - 1]);
    }
  }

  lemma FilterSnoc<T>(p: T -> bool, s: seq<T>, x: T)
    ensures Filter(p, s + [x]) == if p(x) then Filter(p, s) + [x] else Filter(p, s)
  {
    assert (s + [x])[..|s|] == s;
  }

  lemma InsertSnoc<T>(le: (T, T) -> bool, s: seq<T>, y: T, x: T)
    ensures Insert(le, s + [y], x) == if le(y, x) then s + [y] + [x] else Insert(le, s, x) + [y]
  {
    assert (s + [y])[..|s|] == s;
  }

  lemma SortSnoc<T>(le: (T, T) -> bool, s: seq<T>, x: T)
    ensures Sort(le, s + [x]) == Insert(le, Sort(le, s), x)
  {
    assert (s + [x])[..|s|] == s;
  }

  lemma InsertAfterAll<T>(le: (T, T) -> bool, s: seq<T>, x: T)
    requires forall y :: y in s ==> le(y, x)
    ensures Insert(le, s, x) == s + [x]
  {}

  lemma {:induction false} FilterInsert<T(!new)>(le: (T, T) -> bool, p: T -> bool, s: seq<T>, x: T)
    requires TotalPreorder(le) && SortedBy(le, s)
    ensures Filter(p, Insert(le, s, x)) == if p(x) then Insert(le, Filter(p, s), x) else Filter(p, s)
  {
    if s == [] {
      FilterSnoc(p, [], x);
      assert [] + [x] == [x];
    } else {
      var init, last := s[..|s| - 1], s[|s| - 1];
      assert s == init + [last];
      FilterSnoc(p, init, last);
      if le(last, x) {
        FilterSnoc(p, s, x);
        forall y | y in Filter(p, s)
          ensures le(y, x)
        {
          FilterMember(p, s, y);
          assert le(y, last);
        }
        InsertAfterAll(le, Filter(p, s), x);
      } else {
        FilterInsert(le, p, init, x);
        FilterSnoc(p, Insert(le, init, x), last);
        if p(last) {
          InsertSnoc(le, Filter(p, init), last, x);
        }
      }
    }
  }

  /** Sorting is stable: it commutes with every filter. */
  lemma {:induction false} SortFilter<T(!new)>(le: (T, T) -> bool, p: T -> bool, s: seq<T>)
    requires TotalPreorder(le)
    ensures Filter(p, Sort(le, s)) == Sort(le, Filter(p, s))
  {
    if s != [] {
      var init, last := s[..|s| - 1], s[|s| - 1];
      assert s == init + [last];
      SortFilter(le, p, init);
      SortSorts(le, init);
      SortSnoc(le, init, last);
      FilterInsert(le, p, Sort(le, init), last);
      FilterSnoc(p, init, last);
      SortSnoc(le, Filter(p, init), last);
    }
  }

  /** Two orders that agree on the elements of a sequence sort it alike. */
  lemma {:induction false} SortCongruent<T>(le: (T, T) -> bool, lf: (T, T) -> bool, s: seq<T>)
    requires forall x, y :: x in s && y in s ==> le(x, y) == lf(x, y)
    ensures Sort(le, s) == Sort(lf, s)
  {
    if s != [] {
      var init, last := s[..|s| - 1], s[|s| - 1];
      assert forall x :: x in init ==> x in s;
      SortCongruent(le, lf, init);
      forall x | x in Sort(lf, init)
        ensures x in s
      {
        SortMember(lf, init, x);
      }
      InsertCongruent(le, lf, Sort(lf, init), last);
    }
  }

  lemma {:induction false} InsertCongruent<T>(le: (T, T) -> bool, lf: (T, T) -> bool, s: seq<T>, x: T)
    requires forall y :: y in s ==> le(y, x) == lf(y, x)
    ensures Insert(le, s, x) == Insert(lf, s, x)
  {
    if s != [] {
      assert s[|s| - 1] in s;
      assert forall y :: y in s[..|s| - 1] ==> y in s;
      InsertCongruent(le, lf, s[..|s| - 1], x);
    }
  }

  /** What a stable sort by `le` does to a sequence already sorted by `tie`: ties stay in order. */
  ghost predicate SortedWithTies<T(!new)>(le: (T, T) -> bool, tie: (T, T) -> bool, s: seq<T>) {
    forall i, j :: 0 <= i < j < |s| ==> le(s[i], s[j]) && (le(s[j], s[i]) ==> tie(s[i], s[j]))
  }

  lemma {:induction false} InsertKeepsTies<T(!new)>(le: (T, T) -> bool, tie: (T, T) -> bool, s: seq<T>, x: T)
    requires TotalPreorder(le) && SortedWithTies(le, tie, s)
    requires forall y :: y in s ==> tie(y, x)
    ensures SortedWithTies(le, tie, Insert(le, s, x))
  {
    if s != [] {
      var init, last := s[..|s| - 1], s[|s| - 1];
      if !le(last, x) {
        assert forall y :: y in init ==> y in s;
        InsertKeepsTies(le, tie, init, x);
        var r := Insert(le, init, x);
        forall i | 0 <= i < |r|
          ensures le(r[i], last) && (le(last, r[i]) ==> tie(r[i], last))
        {
          InsertPermutes(le, init, x);
          assert r[i] in multiset(r);
          if r[i] != x {
            var k :| 0 <= k < |init| && init[k] == r[i];
            assert s[k] == r[i];
          }
        }
      } else {
        forall i | 0 <= i < |s|
          ensures le(s[i], x)
        {
          assert i < |s| - 1 ==> le(s[i], last);
        }
      }
    }
  }

  lemma {:induction false} SortKeepsTies<T(!new)>(le: (T, T) -> bool, tie: (T, T) -> bool, s: seq<T>)
    requires TotalPreorder(le) && SortedBy(tie, s)
    ensures SortedWithTies(le, tie, Sort(le, s))
  {
    if s != [] {
      var init, last := s[..|s| - 1], s[|s| - 1];
      SortKeepsTies(le, tie, init);
      forall y | y in Sort(le, init)
        ensures tie(y, last)
      {
        SortMember(le, init, y);
        var k :| 0 <= k < |init| && init[k] == y;
        assert s[k] == y;
      }
      InsertKeepsTies(le, tie, Sort(le, init), last);
    }
  }

  /** Filtering keeps the order. */
  lemma {:induction false} FilterSorted<T(!new)>(le: (T, T) -> bool, p: T -> bool, s: seq<T>)
    requires SortedBy(le, s)
    ensures SortedBy(le, Filter(p, s))
  {
    if s != [] {
      var init, last := s[..|s| - 1], s[|s| - 1];
      FilterSorted(le, p, init);
      forall x | x in Filter(p, init)
        ensures le(x, last)
      {
        FilterMember(p, init, x);
        var k :| 0 <= k < |init| && init[k] == x;
        assert s[k] == x;
      }
    }
  }

  lemma TakeSnoc<T>(s: seq<T>, i: nat)
    requires i < |s|
    ensures s[..i + 1] == s[..i] + [s[i]]
  {}

  lemma AppendTake<T>(done: seq<T>, more: seq<T>, t: nat)
    requires t < |more|
    ensures done + more[..t + 1] == done + more[..t] + [more[t]]
  {}

  /** A permutation can be cut where it holds the other sequence's first element. */
  lemma SplitAt<T>(xs: seq<T>, ys: seq<T>) returns (l: seq<T>, r: seq<T>)
    requires xs != [] && multiset(xs) == multiset(ys)
    ensures ys == l + [xs[0]] + r && multiset(xs[1..]) == multiset(l + r)
  {
    assert xs[0] in multiset(ys);
    var k :| 0 <= k < |ys| && ys[k] == xs[0];
    l, r := ys[..k], ys[k + 1..];
    assert ys == l + [xs[0]] + r;
    assert multiset(l + r) == multiset(ys) - multiset{xs[0]} by {
      WithoutOne(l, xs[0], r, ys);
    }
    assert multiset(xs[1..]) == multiset(xs) - multiset{xs[0]} by {
      WithoutOne([], xs[0], xs[1..], xs);
      assert [] + xs[1..] == xs[1..];
    }
  }

  lemma WithoutOne<T>(l: seq<T>, x: T, r: seq<T>, s: seq<T>)
    requires s == l + [x] + r
    ensures multiset(l + r) == multiset(s) - multiset{x}
  {
    assert multiset(s) == multiset(l + r) + multiset{x};
  }
}
