/** Grouping by key in a dictionary of lists that keeps the order in which keys first appear. */
module Grouping {
  import opened Sorting
  import opened Distinctness

  function Has<T, K(==)>(key: T -> K, k: K): T -> bool {
    x => key(x) == k
  }

  /** The group of a key: its elements in their original order. */
  function Group<T, K(==)>(xs: seq<T>, key: T -> K, k: K): seq<T> {
    Filter(Has(key, k), xs)
  }

  /** The keys in order of first appearance. */
  function Keys<T, K(==)>(xs: seq<T>, key: T -> K): seq<K> {
    if xs == [] then []
    else
      var before, k := Keys(xs[..|xs| - 1], key), key(xs[|xs| - 1]);
      if k in before then before else before + [k]
  }

  lemma GroupSnoc<T, K>(xs: seq<T>, key: T -> K, x: T, k: K)
    ensures Group(xs + [x], key, k) == if key(x) == k then Group(xs, key, k) + [x] else Group(xs, key, k)
  {
    FilterSnoc(Has(key, k), xs, x);
  }

  lemma KeysSnoc<T, K>(xs: seq<T>, key: T -> K, x: T)
    ensures Keys(xs + [x], key) == if key(x) in Keys(xs, key) then Keys(xs, key) else Keys(xs, key) + [key(x)]
  {
    assert (xs + [x])[..|xs|] == xs;
  }

  lemma GroupMember<T, K>(xs: seq<T>, key: T -> K, k: K, x: T)
    ensures x in Group(xs, key, k) <==> x in xs && key(x) == k
  {
    FilterMember(Has(key, k), xs, x);
  }

  /** Every key is listed exactly once; those listed, and only those, have a group. */
  lemma {:induction false} KeysExact<T, K(!new)>(xs: seq<T>, key: T -> K)
    ensures Distinct(Keys(xs, key))
    ensures forall x :: x in xs ==> key(x) in Keys(xs, key)
    ensures forall k :: k in Keys(xs, key) <==> Group(xs, key, k) != []
  {
    if xs != [] {
      var init, last := xs[..|xs| - 1], xs[|xs| - 1];
      assert xs == init + [last];
      KeysExact(init, key);
      KeysSnoc(init, key, last);
      DistinctSnoc(Keys(init, key), key(last));
      forall k
        ensures k in Keys(xs, key) <==> Group(xs, key, k) != []
      {
        GroupSnoc(init, key, last, k);
      }
    }
  }

  /** `groups` holds the group of every key seen, `order` the keys in order of first sight. */
  ghost predicate Grouped<T, K(!new)>(xs: seq<T>, key: T -> K, groups: map<K, seq<T>>, order: seq<K>) {
    && order == Keys(xs, key)
    && (forall k :: k in groups <==> k in order)
    && (forall k :: k in groups ==> groups[k] == Group(xs, key, k))
  }

  function GroupIn<T, K>(groups: map<K, seq<T>>, k: K): seq<T> {
    if k in groups then groups[k] else []
  }

  /** `groups.setdefault(k, []).append(x)`. */
  function Appended<T, K>(groups: map<K, seq<T>>, k: K, x: T): map<K, seq<T>> {
    groups[k := GroupIn(groups, k) + [x]]
  }

  lemma GroupInGrouped<T, K(!new)>(xs: seq<T>, key: T -> K, groups: map<K, seq<T>>, order: seq<K>, k: K)
    requires Grouped(xs, key, groups, order)
    ensures GroupIn(groups, k) == Group(xs, key, k)
  {
    KeysExact(xs, key);
  }

  lemma AppendedGroup<T, K(!new)>(xs: seq<T>, key: T -> K, groups: map<K, seq<T>>, order: seq<K>, x: T, k: K)
    requires Grouped(xs, key, groups, order)
    ensures GroupIn(Appended(groups, key(x), x), k) == Group(xs + [x], key, k)
  {
    GroupInGrouped(xs, key, groups, order, k);
    GroupSnoc(xs, key, x, k);
  }

  lemma GroupedSnoc<T, K(!new)>(xs: seq<T>, key: T -> K, groups: map<K, seq<T>>, order: seq<K>, x: T)
    requires Grouped(xs, key, groups, order)
    ensures Grouped(xs + [x], key, Appended(groups, key(x), x), if key(x) in groups then order else order + [key(x)])
  {
    KeysSnoc(xs, key, x);
    var more := Appended(groups, key(x), x);
    forall k | k in more
      ensures more[k] == Group(xs + [x], key, k)
    {
      AppendedGroup(xs, key, groups, order, x, k);
      assert GroupIn(more, k) == more[k];
    }
  }

  lemma GroupAll<T, K>(xs: seq<T>, key: T -> K, k: K)
    requires forall x :: x in xs ==> key(x) == k
    ensures Group(xs, key, k) == xs
  {
    FilterAll(Has(key, k), xs);
  }
}
