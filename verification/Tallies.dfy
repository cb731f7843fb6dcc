/** Counting by key, as the dictionaries of counters do it, and sums over a dictionary. */
module Tallies {
  import opened Sorting
  import opened Grouping

  /** How many elements satisfy a condition. */
  function Number<T>(p: T -> bool, xs: seq<T>): nat {
    |Filter(p, xs)|
  }

  lemma NumberSnoc<T>(p: T -> bool, xs: seq<T>, x: T)
    ensures Number(p, xs + [x]) == if p(x) then Number(p, xs) + 1 else Number(p, xs)
  {
    FilterSnoc(p, xs, x);
  }

  lemma {:induction false} NumberImplies<T>(p: T -> bool, q: T -> bool, xs: seq<T>)
    requires forall x :: x in xs && p(x) ==> q(x)
    ensures Number(p, xs) <= Number(q, xs)
  {
    if xs != [] {
      var init, last := xs[..|xs| - 1], xs[|xs| - 1];
      assert forall x :: x in init ==> x in xs;
      assert xs == init + [last];
      assert last in xs;
      NumberImplies(p, q, init);
      NumberSnoc(p, init, last);
      NumberSnoc(q, init, last);
    }
  }

  lemma {:induction false} NumberPermuted<T>(p: T -> bool, a: seq<T>, b: seq<T>)
    requires multiset(a) == multiset(b)
    ensures Number(p, a) == Number(p, b)
    decreases |a|
  {
    if a == [] {
      assert |multiset(b)| == 0;
    } else {
      var l, r := SplitAt(a, b);
      NumberPermuted(p, a[1..], l + r);
      NumberWithout(p, [], a[0], a[1..]);
      assert [] + [a[0]] + a[1..] == a && [] + a[1..] == a[1..];
      NumberWithout(p, l, a[0], r);
    }
  }

  lemma NumberWithout<T>(p: T -> bool, l: seq<T>, x: T, r: seq<T>)
    ensures Number(p, l + [x] + r) == if p(x) then Number(p, l + r) + 1 else Number(p, l + r)
  {
    FilterConcat(p, l + [x], r);
    FilterConcat(p, l, r);
    FilterSnoc(p, l, x);
  }

  /** Conditions that agree on the elements count alike. */
  lemma {:induction false} NumberCongruent<T>(p: T -> bool, q: T -> bool, xs: seq<T>)
    requires forall x :: x in xs ==> p(x) == q(x)
    ensures Number(p, xs) == Number(q, xs)
  {
    FilterCongruent(p, q, xs);
  }

  function Get<K>(m: map<K, nat>, k: K): nat {
    if k in m then m[k] else 0
  }

  /** How many elements have each key; a key without elements has no entry. */
  function Tally<T, K(==)>(key: T -> K, xs: seq<T>): map<K, nat> {
    if xs == [] then map[]
    else
      var m, k := Tally(key, xs[..|xs| - 1]), key(xs[|xs| - 1]);
      m[k := Get(m, k) + 1]
  }

  lemma TallySnoc<T, K>(key: T -> K, xs: seq<T>, x: T)
    ensures Tally(key, xs + [x]) == Tally(key, xs)[key(x) := Get(Tally(key, xs), key(x)) + 1]
  {
    assert (xs + [x])[..|xs|] == xs;
  }

  /** Each entry is the number of elements with that key. */
  lemma {:induction false} TallyCounts<T, K>(key: T -> K, xs: seq<T>, k: K)
    ensures Get(Tally(key, xs), k) == Number(Has(key, k), xs)
    ensures k in Tally(key, xs) <==> Number(Has(key, k), xs) > 0
  {
    if xs != [] {
      var init, last := xs[..|xs| - 1], xs[|xs| - 1];
      assert xs == init + [last];
      TallyCounts(key, init, k);
      TallySnoc(key, init, last);
      NumberSnoc(Has(key, k), init, last);
    }
  }

  /** The sum of one figure over all entries of a dictionary. */
  ghost function SumBy<K, V>(f: V -> nat, m: map<K, V>): nat
    decreases |m|
  {
    if m == map[] then 0
    else
      var k :| k in m;
      f(m[k]) + SumBy(f, m - {k})
  }

  /** Any entry may be taken out first. */
  lemma {:induction false} SumRemove<K, V>(f: V -> nat, m: map<K, V>, k: K)
    requires k in m
    ensures SumBy(f, m) == f(m[k]) + SumBy(f, m - {k})
    decreases |m|
  {
    var j :| j in m && SumBy(f, m) == f(m[j]) + SumBy(f, m - {j});
    if j != k {
      SumRemove(f, m - {j}, k);
      SumRemove(f, m - {k}, j);
      assert m - {j} - {k} == m - {k} - {j};
    }
  }

  lemma SumPut<K, V>(f: V -> nat, m: map<K, V>, k: K, v: V)
    ensures SumBy(f, m[k := v]) + (if k in m then f(m[k]) else 0) == SumBy(f, m) + f(v)
  {
    SumRemove(f, m[k := v], k);
    if k in m {
      SumRemove(f, m, k);
      assert m[k := v] - {k} == m - {k};
    } else {
      assert m[k := v] - {k} == m;
    }
  }

  function Itself(n: nat): nat { n }

  /** The counts of all keys add up to the number of elements. */
  lemma {:induction false} TallySums<T, K>(key: T -> K, xs: seq<T>)
    ensures SumBy<K, nat>(Itself, Tally(key, xs)) == |xs|
  {
    if xs != [] {
      var init, last := xs[..|xs| - 1], xs[|xs| - 1];
      assert xs == init + [last];
      TallySums(key, init);
      TallySnoc(key, init, last);
      SumPut<K, nat>(Itself, Tally(key, init), key(last), Get(Tally(key, init), key(last)) + 1);
    }
  }
}
