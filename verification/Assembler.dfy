/** The assembler: conflicts between experts and their resolution by intent, and the plan
    that flattens all expert outputs into numbered steps. */
module Assembler {
  import opened Wrappers
  import opened Text
  import opened Sorting
  import opened Distinctness

  datatype ExpertOutput = ExpertOutput(
    expertId: string, expertVersion: int, expertName: string, recommendations: seq<string>, risks: seq<string>,
    validations: seq<string>, assumptions: seq<string>)

  /** The text operations that are taken as given: lower-casing, and printing a set. */
  datatype Format = Format(lower: string -> string, show: set<string> -> string)

  /** How a conflict was settled: by a constraint that speaks for one side, or not at all. */
  datatype Resolution = ForFirst(constraint: string) | ForSecond(constraint: string) | Unresolved

  datatype Conflict = Conflict(expertA: string, expertB: string, description: string, resolution: Resolution)

  // ----- Conflicts ---------------------------------------------------------------------

  function Assumes(o: ExpertOutput): set<string> {
    set a | a in o.assumptions
  }

  /** Two experts conflict when they share an assumption and each holds one the other lacks. */
  predicate Diverge(a: ExpertOutput, b: ExpertOutput) {
    && Assumes(a) * Assumes(b) != {}
    && Assumes(a) - Assumes(b) != {}
    && Assumes(b) - Assumes(a) != {}
  }

  /** Whether a constraint mentions one of some assumptions, ignoring case. */
  predicate Mentions(f: Format, constraint: string, assumptions: set<string>) {
    exists a :: a in assumptions && Contains(f.lower(constraint), f.lower(a))
  }

  /** The first constraint that mentions either side decides, the first side before the second. */
  function Resolve(f: Format, a: set<string>, b: set<string>, constraints: seq<string>): Resolution {
    if constraints == [] then Unresolved
    else if Mentions(f, constraints[0], a) then ForFirst(constraints[0])
    else if Mentions(f, constraints[0], b) then ForSecond(constraints[0])
    else Resolve(f, a, b, constraints[1..])
  }

  function Describe(f: Format, a: ExpertOutput, b: ExpertOutput): string {
    "Divergent assumptions: " + a.expertName + " assumes " + f.show(Assumes(a) - Assumes(b)) + ", "
    + b.expertName + " assumes " + f.show(Assumes(b) - Assumes(a))
  }

  function ConflictOf(f: Format, a: ExpertOutput, b: ExpertOutput, constraints: seq<string>): Conflict {
    Conflict(a.expertName, b.expertName, Describe(f, a, b),
             Resolve(f, Assumes(a) - Assumes(b), Assumes(b) - Assumes(a), constraints))
  }

  method AnyMentioned(f: Format, constraint: string, assumptions: set<string>) returns (found: bool)
    ensures found == Mentions(f, constraint, assumptions)
  {
    var left := assumptions;
    while left != {}
      invariant left <= assumptions
      invariant forall a :: a in assumptions && a !in left ==> !Contains(f.lower(constraint), f.lower(a))
      decreases left
    {
      var a :| a in left;
      if Contains(f.lower(constraint), f.lower(a)) {
        return true;
      }
      left := left - {a};
    }
    found := false;
  }

  method ResolveWithIntent(f: Format, a: set<string>, b: set<string>, constraints: seq<string>)
    returns (r: Resolution)
    ensures r == Resolve(f, a, b, constraints)
  {
    for i := 0 to |constraints|
      invariant Resolve(f, a, b, constraints) == Resolve(f, a, b, constraints[i..])
    {
      assert constraints[i..][1..] == constraints[i + 1..];
      var first := AnyMentioned(f, constraints[i], a);
      if first {
        return ForFirst(constraints[i]);
      }
      var second := AnyMentioned(f, constraints[i], b);
      if second {
        return ForSecond(constraints[i]);
      }
    }
    r := Unresolved;
  }

  /** The conflicts of expert `i` with the experts from `j` on. */
  function RowFrom(f: Format, xs: seq<ExpertOutput>, cs: seq<string>, i: nat, j: nat): seq<Conflict>
    requires i < |xs| && j <= |xs|
    decreases |xs| - j
  {
    if j == |xs| then []
    else (if Diverge(xs[i], xs[j]) then [ConflictOf(f, xs[i], xs[j], cs)] else []) + RowFrom(f, xs, cs, i, j + 1)
  }

  function ConflictsFrom(f: Format, xs: seq<ExpertOutput>, cs: seq<string>, i: nat): seq<Conflict>
    requires i <= |xs|
    decreases |xs| - i
  {
    if i == |xs| then [] else RowFrom(f, xs, cs, i, i + 1) + ConflictsFrom(f, xs, cs, i + 1)
  }

  function Conflicts(f: Format, xs: seq<ExpertOutput>, cs: seq<string>): seq<Conflict> {
    ConflictsFrom(f, xs, cs, 0)
  }

  lemma RowStep(f: Format, xs: seq<ExpertOutput>, cs: seq<string>, i: nat, j: nat, done: seq<Conflict>)
    requires i < |xs| && j < |xs|
    ensures done + RowFrom(f, xs, cs, i, j)
         == (if Diverge(xs[i], xs[j]) then done + [ConflictOf(f, xs[i], xs[j], cs)] else done)
            + RowFrom(f, xs, cs, i, j + 1)
  {
    assert [] + RowFrom(f, xs, cs, i, j + 1) == RowFrom(f, xs, cs, i, j + 1);
  }

  /** One pair of experts: nothing, or their conflict with its resolution. */
  method Compare(f: Format, a: ExpertOutput, b: ExpertOutput, cs: seq<string>) returns (c: Option<Conflict>)
    ensures c == if Diverge(a, b) then Some(ConflictOf(f, a, b, cs)) else None
  {
    if Assumes(a) * Assumes(b) == {} {
      return None;
    }
    var onlyA, onlyB := Assumes(a) - Assumes(b), Assumes(b) - Assumes(a);
    if onlyA == {} || onlyB == {} {
      return None;
    }
    var resolution := ResolveWithIntent(f, onlyA, onlyB, cs);
    c := Some(Conflict(a.expertName, b.expertName, Describe(f, a, b), resolution));
  }

  /** The conflicts of expert `i` with the experts behind it. */
  method CompareRow(f: Format, xs: seq<ExpertOutput>, cs: seq<string>, i: nat) returns (row: seq<Conflict>)
    requires i < |xs|
    ensures row == RowFrom(f, xs, cs, i, i + 1)
  {
    row := [];
    for j := i + 1 to |xs|
      invariant row + RowFrom(f, xs, cs, i, j) == RowFrom(f, xs, cs, i, i + 1)
    {
      RowStep(f, xs, cs, i, j, row);
      var c := Compare(f, xs[i], xs[j], cs);
      if c.Some? {
        row := row + [c.value];
      }
    }
  }

  method DetectConflicts(f: Format, xs: seq<ExpertOutput>, cs: seq<string>) returns (conflicts: seq<Conflict>)
    ensures conflicts == Conflicts(f, xs, cs)
  {
    conflicts := [];
    for i := 0 to |xs|
      invariant conflicts + ConflictsFrom(f, xs, cs, i) == Conflicts(f, xs, cs)
    {
      var row := CompareRow(f, xs, cs, i);
      conflicts := conflicts + row;
    }
  }

  // ----- Which pairs conflict ----------------------------------------------------------

  type Pair = (nat, nat)

  function RowPairs(xs: seq<ExpertOutput>, i: nat, j: nat): seq<Pair>
    requires i < |xs| && j <= |xs|
    decreases |xs| - j
  {
    if j == |xs| then [] else (if Diverge(xs[i], xs[j]) then [(i, j)] else []) + RowPairs(xs, i, j + 1)
  }

  function PairsFrom(xs: seq<ExpertOutput>, i: nat): seq<Pair>
    requires i <= |xs|
    decreases |xs| - i
  {
    if i == |xs| then [] else RowPairs(xs, i, i + 1) + PairsFrom(xs, i + 1)
  }

  lemma {:induction false} RowPairsMembers(xs: seq<ExpertOutput>, i: nat, j: nat)
    requires i < |xs| && j <= |xs|
    ensures |RowPairs(xs, i, j)| <= |xs| - j
    ensures forall p :: p in RowPairs(xs, i, j) <==> p.0 == i && j <= p.1 < |xs| && Diverge(xs[i], xs[p.1])
    decreases |xs| - j
  {
    if j < |xs| {
      RowPairsMembers(xs, i, j + 1);
    }
  }

  lemma {:induction false} RowPairsDistinct(xs: seq<ExpertOutput>, i: nat, j: nat)
    requires i < |xs| && j <= |xs|
    ensures Distinct(RowPairs(xs, i, j))
    decreases |xs| - j
  {
    if j < |xs| {
      RowPairsDistinct(xs, i, j + 1);
      RowPairsMembers(xs, i, j + 1);
      DistinctCons((i, j), RowPairs(xs, i, j + 1));
    }
  }

  lemma DistinctConcat(row: seq<Pair>, rest: seq<Pair>, i: nat)
    requires Distinct(row) && (forall p :: p in row ==> p.0 == i)
    requires Distinct(rest) && (forall p :: p in rest ==> i < p.0)
    ensures Distinct(row + rest)
  {
    assert forall k :: 0 <= k < |row| ==> row[k] in row;
    assert forall k :: 0 <= k < |rest| ==> rest[k] in rest;
  }

  lemma Triangle(m: int, row: int, rest: int)
    requires row <= m - 1 && 2 * rest <= (m - 1) * (m - 1 - 1)
    ensures 2 * (row + rest) <= m * (m - 1)
  {
    assert (m - 1) * (m - 2) + 2 * (m - 1) == m * (m - 1);
  }

  lemma {:induction false} PairsMembers(xs: seq<ExpertOutput>, i: nat)
    requires i <= |xs|
    ensures forall p :: p in PairsFrom(xs, i) <==> i <= p.0 < p.1 < |xs| && Diverge(xs[p.0], xs[p.1])
    decreases |xs| - i
  {
    if i < |xs| {
      RowPairsMembers(xs, i, i + 1);
      PairsMembers(xs, i + 1);
    }
  }

  lemma {:induction false} PairsDistinct(xs: seq<ExpertOutput>, i: nat)
    requires i <= |xs|
    ensures Distinct(PairsFrom(xs, i))
    decreases |xs| - i
  {
    if i < |xs| {
      RowPairsMembers(xs, i, i + 1);
      RowPairsDistinct(xs, i, i + 1);
      PairsMembers(xs, i + 1);
      PairsDistinct(xs, i + 1);
      DistinctConcat(RowPairs(xs, i, i + 1), PairsFrom(xs, i + 1), i);
    }
  }

  lemma {:induction false} PairsBounded(xs: seq<ExpertOutput>, i: nat)
    requires i <= |xs|
    ensures 2 * |PairsFrom(xs, i)| <= (|xs| - i) * (|xs| - i - 1)
    decreases |xs| - i
  {
    if i < |xs| {
      RowPairsMembers(xs, i, i + 1);
      PairsBounded(xs, i + 1);
      Triangle(|xs| - i, |RowPairs(xs, i, i + 1)|, |PairsFrom(xs, i + 1)|);
    }
  }

  /** The conflict reported for a pair of positions. */
  predicate PairOf(f: Format, xs: seq<ExpertOutput>, cs: seq<string>, p: Pair, c: Conflict) {
    p.0 < |xs| && p.1 < |xs| && c == ConflictOf(f, xs[p.0], xs[p.1], cs)
  }

  /** The conflicts are those of the pairs, one for one. */
  ghost predicate Match(f: Format, xs: seq<ExpertOutput>, cs: seq<string>, ps: seq<Pair>, conflicts: seq<Conflict>) {
    |conflicts| == |ps| && forall k :: 0 <= k < |ps| ==> PairOf(f, xs, cs, ps[k], conflicts[k])
  }

  lemma MatchConcat(f: Format, xs: seq<ExpertOutput>, cs: seq<string>, ps: seq<Pair>, a: seq<Conflict>, qs: seq<Pair>,
                    b: seq<Conflict>)
    requires Match(f, xs, cs, ps, a) && Match(f, xs, cs, qs, b)
    ensures Match(f, xs, cs, ps + qs, a + b)
  {}

  lemma {:induction false} RowMatches(f: Format, xs: seq<ExpertOutput>, cs: seq<string>, i: nat, j: nat)
    requires i < |xs| && j <= |xs|
    ensures Match(f, xs, cs, RowPairs(xs, i, j), RowFrom(f, xs, cs, i, j))
    decreases |xs| - j
  {
    if j < |xs| {
      RowMatches(f, xs, cs, i, j + 1);
      if Diverge(xs[i], xs[j]) {
        MatchConcat(f, xs, cs, [(i, j)], [ConflictOf(f, xs[i], xs[j], cs)], RowPairs(xs, i, j + 1),
                    RowFrom(f, xs, cs, i, j + 1));
      } else {
        MatchConcat(f, xs, cs, [], [], RowPairs(xs, i, j + 1), RowFrom(f, xs, cs, i, j + 1));
      }
    }
  }

  lemma {:induction false} FromMatches(f: Format, xs: seq<ExpertOutput>, cs: seq<string>, i: nat)
    requires i <= |xs|
    ensures Match(f, xs, cs, PairsFrom(xs, i), ConflictsFrom(f, xs, cs, i))
    decreases |xs| - i
  {
    if i < |xs| {
      RowMatches(f, xs, cs, i, i + 1);
      FromMatches(f, xs, cs, i + 1);
      MatchConcat(f, xs, cs, RowPairs(xs, i, i + 1), RowFrom(f, xs, cs, i, i + 1), PairsFrom(xs, i + 1),
                  ConflictsFrom(f, xs, cs, i + 1));
    }
  }

  /** The pairs are listed by first position, then by second. */
  predicate Earlier(p: Pair, q: Pair) {
    p.0 < q.0 || (p.0 == q.0 && p.1 < q.1)
  }

  lemma {:induction false} RowPairsInOrder(xs: seq<ExpertOutput>, i: nat, j: nat)
    requires i < |xs| && j <= |xs|
    ensures forall k, l :: 0 <= k < l < |RowPairs(xs, i, j)| ==> Earlier(RowPairs(xs, i, j)[k], RowPairs(xs, i, j)[l])
    decreases |xs| - j
  {
    if j < |xs| {
      RowPairsInOrder(xs, i, j + 1);
      RowPairsMembers(xs, i, j + 1);
      var rest := RowPairs(xs, i, j + 1);
      assert forall k :: 0 <= k < |rest| ==> rest[k] in rest;
    }
  }

  lemma {:induction false} PairsInOrder(xs: seq<ExpertOutput>, i: nat)
    requires i <= |xs|
    ensures forall k, l :: 0 <= k < l < |PairsFrom(xs, i)| ==> Earlier(PairsFrom(xs, i)[k], PairsFrom(xs, i)[l])
    decreases |xs| - i
  {
    if i < |xs| {
      var row, rest := RowPairs(xs, i, i + 1), PairsFrom(xs, i + 1);
      RowPairsInOrder(xs, i, i + 1);
      RowPairsMembers(xs, i, i + 1);
      PairsInOrder(xs, i + 1);
      PairsMembers(xs, i + 1);
      assert forall k :: 0 <= k < |row| ==> row[k] in row;
      assert forall k :: 0 <= k < |rest| ==> rest[k] in rest;
    }
  }

  /** The detected conflicts are exactly the diverging pairs: record `k` is that of pair
      `pairs[k]`, every diverging pair is listed once, by the order of the experts, and there are
      at most n(n-1)/2. */
  lemma ConflictsAreDivergingPairs(f: Format, xs: seq<ExpertOutput>, cs: seq<string>) returns (pairs: seq<Pair>)
    ensures |pairs| == |Conflicts(f, xs, cs)| && Distinct(pairs)
    ensures forall k, l :: 0 <= k < l < |pairs| ==> Earlier(pairs[k], pairs[l])
    ensures forall k :: 0 <= k < |pairs| ==>
              && pairs[k].0 < pairs[k].1 < |xs| && Diverge(xs[pairs[k].0], xs[pairs[k].1])
              && Conflicts(f, xs, cs)[k] == ConflictOf(f, xs[pairs[k].0], xs[pairs[k].1], cs)
    ensures forall i: nat, j: nat :: i < j < |xs| && Diverge(xs[i], xs[j]) ==> (i, j) in pairs
    ensures 2 * |Conflicts(f, xs, cs)| <= |xs| * (|xs| - 1)
  {
    pairs := PairsFrom(xs, 0);
    PairsMembers(xs, 0);
    PairsInOrder(xs, 0);
    PairsDistinct(xs, 0);
    PairsBounded(xs, 0);
    FromMatches(f, xs, cs, 0);
    forall k | 0 <= k < |pairs|
      ensures pairs[k].0 < pairs[k].1 < |xs| && Diverge(xs[pairs[k].0], xs[pairs[k].1])
      ensures Conflicts(f, xs, cs)[k] == ConflictOf(f, xs[pairs[k].0], xs[pairs[k].1], cs)
    {
      assert pairs[k] in pairs && PairOf(f, xs, cs, pairs[k], Conflicts(f, xs, cs)[k]);
    }
  }

  predicate Holds(o: ExpertOutput, assumption: string) {
    assumption in o.assumptions
  }

  /** Divergence, assumption by assumption: one is held by both, one by the first expert only and
      one by the second only. */
  lemma DivergeMeans(a: ExpertOutput, b: ExpertOutput)
    ensures Diverge(a, b) <==>
            && (exists x :: Holds(a, x) && Holds(b, x))
            && (exists x :: Holds(a, x) && !Holds(b, x))
            && (exists x :: Holds(b, x) && !Holds(a, x))
  {
    assert forall x :: x in Assumes(a) <==> Holds(a, x);
    assert forall x :: x in Assumes(b) <==> Holds(b, x);
    if Diverge(a, b) {
      var x :| x in Assumes(a) * Assumes(b);
      var y :| y in Assumes(a) - Assumes(b);
      var z :| z in Assumes(b) - Assumes(a);
      assert Holds(a, x) && Holds(b, x) && Holds(a, y) && Holds(b, z);
    }
    if x :| Holds(a, x) && Holds(b, x) {
      assert x in Assumes(a) * Assumes(b);
    }
    if y :| Holds(a, y) && !Holds(b, y) {
      assert y in Assumes(a) - Assumes(b);
    }
    if z :| Holds(b, z) && !Holds(a, z) {
      assert z in Assumes(b) - Assumes(a);
    }
  }

  /** What a conflict says: the two names in order, and a settlement by intent over what the first
      expert alone assumes against what the second alone assumes. */
  lemma ConflictTells(f: Format, a: ExpertOutput, b: ExpertOutput, cs: seq<string>)
    ensures var c := ConflictOf(f, a, b, cs);
      var onlyA := set x | x in a.assumptions && x !in b.assumptions;
      var onlyB := set x | x in b.assumptions && x !in a.assumptions;
      && c.expertA == a.expertName && c.expertB == b.expertName
      && c.description == "Divergent assumptions: " + a.expertName + " assumes " + f.show(onlyA) + ", "
                          + b.expertName + " assumes " + f.show(onlyB)
      && c.resolution == Resolve(f, onlyA, onlyB, cs)
  {
    assert (set x | x in a.assumptions && x !in b.assumptions) == Assumes(a) - Assumes(b);
    assert (set x | x in b.assumptions && x !in a.assumptions) == Assumes(b) - Assumes(a);
  }

  // ----- Constraints -------------------------------------------------------------------

  /** No constraint before position `k` has an assumption of either side in it. */
  ghost predicate SilentBefore(f: Format, a: set<string>, b: set<string>, cs: seq<string>, k: nat) {
    forall i, x :: 0 <= i < k && i < |cs| && (x in a || x in b) ==> !Contains(f.lower(cs[i]), f.lower(x))
  }

  /** The first constraint with an assumption of either side in it decides: for the first side if it
      has one of its assumptions in it, else for the second. If there is none, nothing is decided. */
  lemma {:induction false} FirstMentionDecides(f: Format, a: set<string>, b: set<string>, cs: seq<string>, k: nat)
    requires k <= |cs| && SilentBefore(f, a, b, cs, k)
    ensures k == |cs| ==> Resolve(f, a, b, cs) == Unresolved
    ensures k < |cs| && (exists x :: x in a && Contains(f.lower(cs[k]), f.lower(x))) ==>
              Resolve(f, a, b, cs) == ForFirst(cs[k])
    ensures k < |cs| && (forall x :: x in a ==> !Contains(f.lower(cs[k]), f.lower(x)))
            && (exists x :: x in b && Contains(f.lower(cs[k]), f.lower(x))) ==>
              Resolve(f, a, b, cs) == ForSecond(cs[k])
  {
    if k > 0 {
      assert forall i :: 0 <= i < |cs| - 1 ==> cs[1..][i] == cs[i + 1];
      assert !Mentions(f, cs[0], a) && !Mentions(f, cs[0], b);
      FirstMentionDecides(f, a, b, cs[1..], k - 1);
    }
  }

  /** A further constraint never changes a resolution that was already reached. */
  lemma {:induction false} ResolutionIsStable(f: Format, a: set<string>, b: set<string>, cs: seq<string>, c: string)
    ensures Resolve(f, a, b, cs) != Unresolved ==> Resolve(f, a, b, cs + [c]) == Resolve(f, a, b, cs)
    ensures Resolve(f, a, b, cs) == Unresolved ==> Resolve(f, a, b, cs + [c]) == Resolve(f, a, b, [c])
  {
    if cs == [] {
      assert cs + [c] == [c];
    } else {
      assert (cs + [c])[1..] == cs[1..] + [c];
      ResolutionIsStable(f, a, b, cs[1..], c);
    }
  }

  /** Appending a constraint keeps every conflict in its place, resolved ones unchanged. */
  lemma AppendedConstraint(f: Format, xs: seq<ExpertOutput>, cs: seq<string>, c: string)
    ensures var before, after := Conflicts(f, xs, cs), Conflicts(f, xs, cs + [c]);
      && |after| == |before|
      && forall k :: 0 <= k < |before| ==>
           && after[k].(resolution := before[k].resolution) == before[k]
           && (before[k].resolution != Unresolved ==> after[k] == before[k])
  {
    var before, after := Conflicts(f, xs, cs), Conflicts(f, xs, cs + [c]);
    FromMatches(f, xs, cs, 0);
    FromMatches(f, xs, cs + [c], 0);
    forall k | 0 <= k < |before|
      ensures after[k].(resolution := before[k].resolution) == before[k]
      ensures before[k].resolution != Unresolved ==> after[k] == before[k]
    {
      var p := PairsFrom(xs, 0)[k];
      assert PairOf(f, xs, cs, p, before[k]) && PairOf(f, xs, cs + [c], p, after[k]);
      ResolutionIsStable(f, Assumes(xs[p.0]) - Assumes(xs[p.1]), Assumes(xs[p.1]) - Assumes(xs[p.0]), cs, c);
    }
  }

  function Mirror(r: Resolution): Resolution {
    match r
    case ForFirst(c) => ForSecond(c)
    case ForSecond(c) => ForFirst(c)
    case Unresolved => Unresolved
  }

  /** Swapping the two experts swaps the side that wins, unless the deciding constraint
      mentions both: then the one listed first wins either way. */
  lemma {:induction false} SwappedResolution(f: Format, a: set<string>, b: set<string>, cs: seq<string>)
    ensures var r, s := Resolve(f, a, b, cs), Resolve(f, b, a, cs);
      && (r == Unresolved <==> s == Unresolved)
      && (r != Unresolved ==> r.constraint == s.constraint && r.constraint in cs)
      && (s == Mirror(r) <==> r == Unresolved || !(Mentions(f, r.constraint, a) && Mentions(f, r.constraint, b)))
  {
    if cs != [] && !Mentions(f, cs[0], a) && !Mentions(f, cs[0], b) {
      SwappedResolution(f, a, b, cs[1..]);
    }
  }

  // ----- Order of the experts ----------------------------------------------------------

  /** What stays of a conflict when the order of the experts is forgotten. */
  type Key = (multiset<string>, bool)

  function KeyOf(c: Conflict): Key {
    (multiset{c.expertA, c.expertB}, c.resolution.Unresolved?)
  }

  function Keys(conflicts: seq<Conflict>): multiset<Key> {
    if conflicts == [] then multiset{} else multiset{KeyOf(conflicts[0])} + Keys(conflicts[1..])
  }

  function PairKey(f: Format, a: ExpertOutput, b: ExpertOutput, cs: seq<string>): multiset<Key> {
    if Diverge(a, b) then multiset{KeyOf(ConflictOf(f, a, b, cs))} else multiset{}
  }

  function RowKeys(f: Format, a: ExpertOutput, xs: seq<ExpertOutput>, cs: seq<string>): multiset<Key> {
    if xs == [] then multiset{} else PairKey(f, a, xs[0], cs) + RowKeys(f, a, xs[1..], cs)
  }

  function AllKeys(f: Format, xs: seq<ExpertOutput>, cs: seq<string>): multiset<Key> {
    if xs == [] then multiset{} else RowKeys(f, xs[0], xs[1..], cs) + AllKeys(f, xs[1..], cs)
  }

  lemma {:induction false} KeysConcat(a: seq<Conflict>, b: seq<Conflict>)
    ensures Keys(a + b) == Keys(a) + Keys(b)
  {
    if a == [] {
      assert a + b == b;
    } else {
      assert (a + b)[1..] == a[1..] + b;
      KeysConcat(a[1..], b);
    }
  }

  lemma KeysOfHead(f: Format, a: ExpertOutput, b: ExpertOutput, cs: seq<string>, rest: seq<Conflict>)
    ensures Keys((if Diverge(a, b) then [ConflictOf(f, a, b, cs)] else []) + rest) == PairKey(f, a, b, cs) + Keys(rest)
  {
    var head := if Diverge(a, b) then [ConflictOf(f, a, b, cs)] else [];
    KeysConcat(head, rest);
    assert head != [] ==> head[1..] == [];
  }

  lemma {:induction false} KeysOfRow(f: Format, xs: seq<ExpertOutput>, cs: seq<string>, i: nat, j: nat)
    requires i < |xs| && j <= |xs|
    ensures Keys(RowFrom(f, xs, cs, i, j)) == RowKeys(f, xs[i], xs[j..], cs)
    decreases |xs| - j
  {
    if j < |xs| {
      KeysOfRow(f, xs, cs, i, j + 1);
      assert xs[j..][1..] == xs[j + 1..];
      KeysOfHead(f, xs[i], xs[j], cs, RowFrom(f, xs, cs, i, j + 1));
    }
  }

  lemma {:induction false} KeysOfConflicts(f: Format, xs: seq<ExpertOutput>, cs: seq<string>, i: nat)
    requires i <= |xs|
    ensures Keys(ConflictsFrom(f, xs, cs, i)) == AllKeys(f, xs[i..], cs)
    decreases |xs| - i
  {
    if i < |xs| {
      KeysOfRow(f, xs, cs, i, i + 1);
      KeysOfConflicts(f, xs, cs, i + 1);
      KeysConcat(RowFrom(f, xs, cs, i, i + 1), ConflictsFrom(f, xs, cs, i + 1));
      assert xs[i..][1..] == xs[i + 1..];
    }
  }

  lemma PairKeySymmetric(f: Format, a: ExpertOutput, b: ExpertOutput, cs: seq<string>)
    ensures PairKey(f, a, b, cs) == PairKey(f, b, a, cs)
  {
    assert Assumes(a) * Assumes(b) == Assumes(b) * Assumes(a);
    SwappedResolution(f, Assumes(a) - Assumes(b), Assumes(b) - Assumes(a), cs);
    assert multiset{a.expertName, b.expertName} == multiset{b.expertName, a.expertName};
  }

  lemma {:induction false} RowKeysInsert(f: Format, a: ExpertOutput, l: seq<ExpertOutput>, x: ExpertOutput,
                                         r: seq<ExpertOutput>, cs: seq<string>)
    ensures RowKeys(f, a, l + [x] + r, cs) == PairKey(f, a, x, cs) + RowKeys(f, a, l + r, cs)
    decreases |l|
  {
    if l == [] {
      assert (l + [x] + r)[1..] == r && l + r == r;
    } else {
      assert (l + [x] + r)[1..] == l[1..] + [x] + r && (l + r)[1..] == l[1..] + r;
      RowKeysInsert(f, a, l[1..], x, r, cs);
    }
  }

  /** An expert may be moved to the front without changing the keys. */
  lemma {:induction false} AllKeysInsert(f: Format, l: seq<ExpertOutput>, x: ExpertOutput, r: seq<ExpertOutput>,
                                         cs: seq<string>)
    ensures AllKeys(f, l + [x] + r, cs) == RowKeys(f, x, l + r, cs) + AllKeys(f, l + r, cs)
    decreases |l|
  {
    if l == [] {
      assert (l + [x] + r)[1..] == r && l + r == r;
    } else {
      var y, rest := l[0], l[1..];
      assert (l + [x] + r)[1..] == rest + [x] + r && (l + r)[1..] == rest + r;
      AllKeysInsert(f, rest, x, r, cs);
      RowKeysInsert(f, y, rest, x, r, cs);
      PairKeySymmetric(f, x, y, cs);
    }
  }

  lemma {:induction false} RowKeysPermuted(f: Format, a: ExpertOutput, xs: seq<ExpertOutput>, ys: seq<ExpertOutput>,
                                           cs: seq<string>)
    requires multiset(xs) == multiset(ys)
    ensures RowKeys(f, a, xs, cs) == RowKeys(f, a, ys, cs)
    decreases |xs|
  {
    if xs == [] {
      assert |multiset(ys)| == 0;
    } else {
      var l, r := SplitAt(xs, ys);
      RowKeysInsert(f, a, l, xs[0], r, cs);
      RowKeysPermuted(f, a, xs[1..], l + r, cs);
    }
  }

  lemma {:induction false} AllKeysPermuted(f: Format, xs: seq<ExpertOutput>, ys: seq<ExpertOutput>, cs: seq<string>)
    requires multiset(xs) == multiset(ys)
    ensures AllKeys(f, xs, cs) == AllKeys(f, ys, cs)
    decreases |xs|
  {
    if xs == [] {
      assert |multiset(ys)| == 0;
    } else {
      var l, r := SplitAt(xs, ys);
      AllKeysInsert(f, l, xs[0], r, cs);
      RowKeysPermuted(f, xs[0], xs[1..], l + r, cs);
      AllKeysPermuted(f, xs[1..], l + r, cs);
    }
  }

  /** Reordering the experts keeps the conflicts as unordered pairs with their status,
      repetitions included. */
  lemma ReorderingExperts(f: Format, xs: seq<ExpertOutput>, ys: seq<ExpertOutput>, cs: seq<string>)
    requires multiset(xs) == multiset(ys)
    ensures Keys(Conflicts(f, xs, cs)) == Keys(Conflicts(f, ys, cs))
  {
    KeysOfConflicts(f, xs, cs, 0);
    KeysOfConflicts(f, ys, cs, 0);
    assert xs[0..] == xs && ys[0..] == ys;
    AllKeysPermuted(f, xs, ys, cs);
  }
}
