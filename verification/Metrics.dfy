/** Quality metrics from the outcome signals: verification loopbacks by category and repo, and
    single-pass workflows over the last 7 and 30 days. */
module Metrics {
  import opened Wrappers
  import opened Text
  import opened Sorting
  import opened Distinctness
  import opened Grouping
  import opened Tallies
  import opened Clock

  datatype SignalEvent =
    | VerificationPassed
    | VerificationFailed
    | VerificationExhausted
    | QaPassed
    | QaDefect
    | QaRework
    | MergeSucceeded
    | MergeReverted
    | PostMergeIssue

  /** The step in a signal's payload: absent, a text, or anything else. */
  datatype Step = NoStep | StepText(text: string) | NotText

  datatype Signal = Signal(event: SignalEvent, correlationId: string, timestamp: int, repo: Option<string>, step: Step)

  type Lower = string -> string

  function RepoOf(s: Signal): string {
    if s.repo.Some? then s.repo.value else "unknown"
  }

  /** An absent filter and an empty one both let every repo through. */
  predicate Filters(filter: Option<string>, repo: string) {
    filter.Some? && filter.value != "" && repo != filter.value
  }

  // ----- Loopbacks ---------------------------------------------------------------------

  datatype Category = Lint | Other | Security | Test

  /** The categories with their keywords, in the order in which they are tried. */
  function Keywords(): seq<(Category, seq<string>)> {
    [(Lint, ["verify_lint", "lint"]), (Test, ["verify_test", "test"]), (Security, ["verify_security", "security"])]
  }

  function Lowered(lower: Lower, s: Signal): string {
    lower(if s.step.StepText? then s.step.text else "")
  }

  predicate Mentions(step: string, keywords: seq<string>) {
    exists k :: 0 <= k < |keywords| && Contains(step, keywords[k])
  }

  /** The first category in a table that the step mentions. */
  function FirstMentioned(step: string, table: seq<(Category, seq<string>)>): Category {
    if table == [] then Other
    else if Mentions(step, table[0].1) then table[0].0
    else FirstMentioned(step, table[1..])
  }

  function CategoryOf(lower: Lower): Signal -> Category {
    s => FirstMentioned(Lowered(lower, s), Keywords())
  }

  method Categorize(step: string) returns (c: Category)
    ensures c == FirstMentioned(step, Keywords())
  {
    var table := Keywords();
    for i := 0 to |table|
      invariant FirstMentioned(step, table) == FirstMentioned(step, table[i..])
    {
      if Mentions(step, table[i].1) {
        return table[i].0;
      }
      assert table[i..][1..] == table[i + 1..];
    }
    c := Other;
  }

  predicate IsHit(filter: Option<string>, s: Signal) {
    s.event == VerificationFailed && !Filters(filter, RepoOf(s))
  }

  function Hit(filter: Option<string>): Signal -> bool {
    s => IsHit(filter, s)
  }

  /** The failed verifications that pass the filter. */
  function Loopbacks(signals: seq<Signal>, filter: Option<string>): seq<Signal> {
    Filter(Hit(filter), signals)
  }

  datatype LoopbackEntry = LoopbackEntry(category: Category, count: nat, percentage: real)

  datatype LoopbackMetrics = LoopbackMetrics(total: nat, categories: seq<LoopbackEntry>, byRepo: map<string, nat>)

  function Percentage(count: nat, total: nat): real {
    if total == 0 then 0.0 else count as real / total as real * 100.0
  }

  function CountIn(lower: Lower, hits: seq<Signal>, c: Category): nat {
    Number(Has(CategoryOf(lower), c), hits)
  }

  lemma CountSnoc(lower: Lower, hits: seq<Signal>, s: Signal)
    ensures forall c: Category :: CountIn(lower, hits + [s], c)
              == if c == CategoryOf(lower)(s) then CountIn(lower, hits, c) + 1 else CountIn(lower, hits, c)
  {
    forall c: Category
      ensures CountIn(lower, hits + [s], c)
           == if c == CategoryOf(lower)(s) then CountIn(lower, hits, c) + 1 else CountIn(lower, hits, c)
    {
      NumberSnoc(Has(CategoryOf(lower), c), hits, s);
    }
  }

  function EntryFor(lower: Lower, hits: seq<Signal>, c: Category): LoopbackEntry {
    LoopbackEntry(c, CountIn(lower, hits, c), Percentage(CountIn(lower, hits, c), |hits|))
  }

  ghost predicate LoopbacksFor(lower: Lower, hits: seq<Signal>, m: LoopbackMetrics) {
    && m.total == |hits|
    && m.byRepo == Tally(RepoOf, hits)
    && m.categories == [EntryFor(lower, hits, Lint), EntryFor(lower, hits, Other),
                        EntryFor(lower, hits, Security), EntryFor(lower, hits, Test)]
  }

  /** What the loop has counted after some loopbacks. */
  ghost predicate Counted(lower: Lower, hits: seq<Signal>, total: nat, byRepo: map<string, nat>,
                          counts: map<Category, nat>)
  {
    && total == |hits| && byRepo == Tally(RepoOf, hits)
    && forall c: Category :: c in counts && counts[c] == CountIn(lower, hits, c)
  }

  lemma CountedSnoc(lower: Lower, hits: seq<Signal>, s: Signal, total: nat, byRepo: map<string, nat>,
                    counts: map<Category, nat>)
    requires Counted(lower, hits, total, byRepo, counts)
    ensures var c, repo := CategoryOf(lower)(s), RepoOf(s);
            Counted(lower, hits + [s], total + 1, byRepo[repo := Get(byRepo, repo) + 1], counts[c := counts[c] + 1])
  {
    TallySnoc(RepoOf, hits, s);
    CountSnoc(lower, hits, s);
  }

  lemma LoopbacksSnoc(signals: seq<Signal>, filter: Option<string>, i: nat)
    requires i < |signals|
    ensures Loopbacks(signals[..i + 1], filter)
         == if IsHit(filter, signals[i]) then Loopbacks(signals[..i], filter) + [signals[i]]
            else Loopbacks(signals[..i], filter)
  {
    assert signals[..i + 1] == signals[..i] + [signals[i]];
    FilterSnoc(Hit(filter), signals[..i], signals[i]);
  }

  /** A step that is there but no text cannot be lower-cased. */
  predicate StepRaises(s: Signal) {
    s.step.NotText?
  }

  ghost predicate LoopbacksRaise(hits: seq<Signal>) {
    exists s :: s in hits && StepRaises(s)
  }

  /** Stops with an exception at the first loopback whose step is no text. */
  method CountLoopbacks(lower: Lower, signals: seq<Signal>, filter: Option<string>)
    returns (raised: bool, total: nat, byRepo: map<string, nat>, counts: map<Category, nat>)
    ensures raised <==> LoopbacksRaise(Loopbacks(signals, filter))
    ensures !raised ==> Counted(lower, Loopbacks(signals, filter), total, byRepo, counts)
  {
    raised, total, byRepo := false, 0, map[];
    counts := map[Lint := 0, Test := 0, Security := 0, Other := 0];
    NothingCounted(lower, counts);
    for i := 0 to |signals|
      invariant !raised && !LoopbacksRaise(Loopbacks(signals[..i], filter))
      invariant Counted(lower, Loopbacks(signals[..i], filter), total, byRepo, counts)
    {
      var s := signals[i];
      LoopbacksSnoc(signals, filter, i);
      var repo := RepoOf(s);
      if s.event == VerificationFailed && !Filters(filter, repo) {
        if StepRaises(s) {
          HitIsLoopback(signals, filter, i);
          raised := true;
          return;
        }
        total, byRepo, counts := CountLoopback(lower, s, total, byRepo, counts, Loopbacks(signals[..i], filter));
      }
    }
    assert signals[..|signals|] == signals;
  }

  lemma HitIsLoopback(signals: seq<Signal>, filter: Option<string>, i: nat)
    requires i < |signals| && IsHit(filter, signals[i])
    ensures signals[i] in Loopbacks(signals, filter)
  {
    FilterMember(Hit(filter), signals, signals[i]);
  }

  method CountLoopback(lower: Lower, s: Signal, total: nat, byRepo: map<string, nat>, counts: map<Category, nat>,
                       ghost hits: seq<Signal>)
    returns (total': nat, byRepo': map<string, nat>, counts': map<Category, nat>)
    requires Counted(lower, hits, total, byRepo, counts)
    ensures Counted(lower, hits + [s], total', byRepo', counts')
  {
    CountedSnoc(lower, hits, s, total, byRepo, counts);
    var repo := RepoOf(s);
    var category := Categorize(Lowered(lower, s));
    total' := total + 1;
    byRepo' := byRepo[repo := Get(byRepo, repo) + 1];
    counts' := counts[category := counts[category] + 1];
  }

  /** No result when a loopback's step raises. */
  method GetLoopbacks(lower: Lower, signals: seq<Signal>, filter: Option<string>)
    returns (m: Option<LoopbackMetrics>)
    ensures m.None? <==> exists s :: s in Loopbacks(signals, filter) && s.step == NotText
    ensures m.Some? ==> LoopbacksFor(lower, Loopbacks(signals, filter), m.value)
  {
    var raised, total, byRepo, counts := CountLoopbacks(lower, signals, filter);
    if raised {
      return None;
    }
    m := Some(LoopbackMetrics(total, [LoopbackEntry(Lint, counts[Lint], Percentage(counts[Lint], total)),
                                      LoopbackEntry(Other, counts[Other], Percentage(counts[Other], total)),
                                      LoopbackEntry(Security, counts[Security], Percentage(counts[Security], total)),
                                      LoopbackEntry(Test, counts[Test], Percentage(counts[Test], total))], byRepo));
  }

  lemma NothingCounted(lower: Lower, counts: map<Category, nat>)
    requires counts == map[Lint := 0, Test := 0, Security := 0, Other := 0]
    ensures Counted(lower, [], 0, map[], counts)
  {
    forall c: Category
      ensures c in counts && counts[c] == CountIn(lower, [], c)
    {
      match c
      case Lint =>
      case Other =>
      case Security =>
      case Test =>
    }
  }

  lemma {:induction false} CategoriesSum(lower: Lower, hits: seq<Signal>)
    ensures CountIn(lower, hits, Lint) + CountIn(lower, hits, Other) + CountIn(lower, hits, Security)
            + CountIn(lower, hits, Test) == |hits|
  {
    if hits != [] {
      var init, s := hits[..|hits| - 1], hits[|hits| - 1];
      assert hits == init + [s];
      CategoriesSum(lower, init);
      CountSnoc(lower, init, s);
    }
  }

  /** The category counts and the per-repo counts each add up to the total, and the percentages
      to 100 when there is any loopback. */
  lemma LoopbacksReconcile(lower: Lower, hits: seq<Signal>, m: LoopbackMetrics)
    requires LoopbacksFor(lower, hits, m)
    ensures |m.categories| == 4
    ensures m.categories[0].count + m.categories[1].count + m.categories[2].count + m.categories[3].count == m.total
    ensures SumBy<string, nat>(Itself, m.byRepo) == m.total
    ensures m.total > 0 ==> m.categories[0].percentage + m.categories[1].percentage + m.categories[2].percentage
                            + m.categories[3].percentage == 100.0
  {
    CategoriesSum(lower, hits);
    TallySums(RepoOf, hits);
    if m.total > 0 {
      Percentages(m.categories[0].count, m.categories[1].count, m.categories[2].count, m.categories[3].count);
    }
  }

  lemma Percentages(a: nat, b: nat, c: nat, d: nat)
    requires a + b + c + d > 0
    ensures var n := a + b + c + d;
            Percentage(a, n) + Percentage(b, n) + Percentage(c, n) + Percentage(d, n) == 100.0
  {
    var n := (a + b + c + d) as real;
    assert a as real / n + b as real / n + c as real / n + d as real / n == n / n;
  }

  /** A repo's filtered total equals its tally in the unfiltered result, except that the empty
      repo id cannot be filtered for: then it does only if all loopbacks are of that repo. */
  lemma FilteredTotal(signals: seq<Signal>, repo: string)
    ensures |Loopbacks(signals, Some(repo))| == Get(Tally(RepoOf, Loopbacks(signals, None)), repo)
            <==> repo != "" || forall s :: s in Loopbacks(signals, None) ==> RepoOf(s) == ""
  {
    var all := Loopbacks(signals, None);
    TallyCounts(RepoOf, all, repo);
    if repo != "" {
      FilterTwice(Hit(None), Has(RepoOf, repo), Hit(Some(repo)), signals);
    } else {
      FilterCongruent(Hit(Some("")), Hit(None), signals);
      FilterFull(Has(RepoOf, ""), all);
    }
  }

  /** A filter keeps everything exactly when its count says so. */
  lemma {:induction false} FilterFull<T>(p: T -> bool, s: seq<T>)
    ensures |Filter(p, s)| == |s| <==> forall x :: x in s ==> p(x)
  {
    if forall x :: x in s ==> p(x) {
      FilterAll(p, s);
    } else {
      var x :| x in s && !p(x);
      var k :| 0 <= k < |s| && s[k] == x;
      assert s == s[..k] + [x] + s[k + 1..];
      FilterConcat(p, s[..k] + [x], s[k + 1..]);
      FilterSnoc(p, s[..k], x);
    }
  }

  // ----- Single-pass workflows ---------------------------------------------------------

  /** All signals with one correlation id, in order. */
  datatype Workflow = Workflow(id: string, signals: seq<Signal>)

  function Correlation(s: Signal): string {
    s.correlationId
  }

  /** The correlation ids, in order of first appearance. */
  function Ids(signals: seq<Signal>): seq<string> {
    Keys(signals, Correlation)
  }

  function SignalsOf(signals: seq<Signal>, id: string): seq<Signal> {
    Group(signals, Correlation, id)
  }

  function WorkflowOf(signals: seq<Signal>, id: string): Workflow {
    Workflow(id, SignalsOf(signals, id))
  }

  function WorkflowsOf(signals: seq<Signal>, ids: seq<string>): (ws: seq<Workflow>)
    ensures |ws| == |ids| && forall i :: 0 <= i < |ws| ==> ws[i] == WorkflowOf(signals, ids[i])
  {
    seq(|ids|, i requires 0 <= i < |ids| => WorkflowOf(signals, ids[i]))
  }

  function Workflows(signals: seq<Signal>): seq<Workflow> {
    WorkflowsOf(signals, Ids(signals))
  }

  function Keep(filter: Option<string>): Signal -> bool {
    s => !Filters(filter, RepoOf(s))
  }

  predicate IsFailure(s: Signal) {
    s.event == VerificationFailed || s.event == VerificationExhausted || s.event == QaDefect || s.event == QaRework
  }

  predicate IsSuccess(s: Signal) {
    s.event == VerificationPassed || s.event == QaPassed
  }

  predicate SinglePass(w: Workflow) {
    && (exists i :: 0 <= i < |w.signals| && IsSuccess(w.signals[i]))
    && (forall i :: 0 <= i < |w.signals| ==> !IsFailure(w.signals[i]))
  }

  function FirstRepo(w: Workflow): string {
    if w.signals == [] then "unknown" else RepoOf(w.signals[0])
  }

  predicate StartedSince(w: Workflow, cutoff: int) {
    w.signals != [] && w.signals[0].timestamp >= cutoff
  }

  function Started(cutoff: int): Workflow -> bool {
    w => StartedSince(w, cutoff)
  }

  function Succeeded(cutoff: int): Workflow -> bool {
    w => StartedSince(w, cutoff) && SinglePass(w)
  }

  datatype Counts = Counts(total7: nat, success7: nat, total30: nat, success30: nat)

  const ZERO := Counts(0, 0, 0, 0)

  function Plus(a: Counts, b: Counts): Counts {
    Counts(a.total7 + b.total7, a.success7 + b.success7, a.total30 + b.total30, a.success30 + b.success30)
  }

  /** How many workflows began, and how many of those passed at once, in the two windows. */
  function CountsOf(ws: seq<Workflow>, now: int): Counts {
    Counts(Number(Started(now - 7 * DAY), ws), Number(Succeeded(now - 7 * DAY), ws),
           Number(Started(now - 30 * DAY), ws), Number(Succeeded(now - 30 * DAY), ws))
  }

  /** What one workflow adds to the counts. */
  function Credits(started7: bool, started30: bool, singlePass: bool): Counts {
    Counts(if started7 then 1 else 0, if started7 && singlePass then 1 else 0,
           if started30 then 1 else 0, if started30 && singlePass then 1 else 0)
  }

  function One(w: Workflow, now: int): Counts {
    Credits(StartedSince(w, now - 7 * DAY), StartedSince(w, now - 30 * DAY), SinglePass(w))
  }

  lemma CountsSnoc(ws: seq<Workflow>, w: Workflow, now: int)
    ensures CountsOf(ws + [w], now) == Plus(CountsOf(ws, now), One(w, now))
  {
    NumberSnoc(Started(now - 7 * DAY), ws, w);
    NumberSnoc(Succeeded(now - 7 * DAY), ws, w);
    NumberSnoc(Started(now - 30 * DAY), ws, w);
    NumberSnoc(Succeeded(now - 30 * DAY), ws, w);
  }

  function At(m: map<string, Counts>, k: string): Counts {
    if k in m then m[k] else ZERO
  }

  function Recorded(m: map<string, Counts>, repo: string, c: Counts): map<string, Counts> {
    m[repo := Plus(At(m, repo), c)]
  }

  /** The counts per repo: every workflow counts for the repo of its first signal. */
  function RepoCounts(ws: seq<Workflow>, now: int): map<string, Counts> {
    if ws == [] then map[]
    else
      Recorded(RepoCounts(ws[..|ws| - 1], now), FirstRepo(ws[|ws| - 1]), One(ws[|ws| - 1], now))
  }

  function Rate(success: nat, total: nat): real {
    if total == 0 then 0.0 else success as real / total as real
  }

  datatype Rates = Rates(rate7: real, rate30: real)

  function RatesOf(c: Counts): Rates {
    Rates(Rate(c.success7, c.total7), Rate(c.success30, c.total30))
  }

  datatype SinglePassMetrics = SinglePassMetrics(overall: Rates, counts: Counts, byRepo: map<string, Rates>)

  ghost predicate SinglePassFor(ws: seq<Workflow>, now: int, m: SinglePassMetrics) {
    && m.counts == CountsOf(ws, now)
    && m.overall == RatesOf(m.counts)
    && m.byRepo == map repo | repo in RepoCounts(ws, now) :: RatesOf(RepoCounts(ws, now)[repo])
  }

  function Kept(signals: seq<Signal>, filter: Option<string>): seq<Signal> {
    Filter(Keep(filter), signals)
  }

  lemma KeptSnoc(signals: seq<Signal>, filter: Option<string>, i: nat)
    requires i < |signals|
    ensures Kept(signals[..i + 1], filter)
         == if Filters(filter, RepoOf(signals[i])) then Kept(signals[..i], filter)
            else Kept(signals[..i], filter) + [signals[i]]
  {
    assert signals[..i + 1] == signals[..i] + [signals[i]];
    FilterSnoc(Keep(filter), signals[..i], signals[i]);
  }

  /** Groups the signals by correlation id; the dictionary keeps the order of first appearance. */
  method GroupByCorrelation(signals: seq<Signal>, filter: Option<string>)
    returns (order: seq<string>, groups: map<string, seq<Signal>>)
    ensures Grouped(Kept(signals, filter), Correlation, groups, order)
  {
    order, groups := [], map[];
    for i := 0 to |signals|
      invariant Grouped(Kept(signals[..i], filter), Correlation, groups, order)
    {
      var s := signals[i];
      KeptSnoc(signals, filter, i);
      if Filters(filter, RepoOf(s)) {
        continue;
      }
      GroupedSnoc(Kept(signals[..i], filter), Correlation, groups, order, s);
      var key := s.correlationId;
      if key !in groups {
        order := order + [key];
      }
      groups := Appended(groups, key, s);
    }
    assert signals[..|signals|] == signals;
  }

  /** Each correlation id is listed exactly once, and each listed one has signals. */
  lemma IdsExact(signals: seq<Signal>)
    ensures Distinct(Ids(signals))
    ensures forall s :: s in signals ==> s.correlationId in Ids(signals)
    ensures forall id :: id in Ids(signals) ==> SignalsOf(signals, id) != []
  {
    KeysExact(signals, Correlation);
    assert forall s: Signal :: Correlation(s) == s.correlationId;
  }

  /** The workflow of an id begins with the first signal that carries the id. */
  lemma {:induction false} FirstOfGroup(signals: seq<Signal>, id: string, k: nat)
    requires k < |signals| && signals[k].correlationId == id
    requires forall j :: 0 <= j < k ==> signals[j].correlationId != id
    ensures SignalsOf(signals, id) != [] && SignalsOf(signals, id)[0] == signals[k]
  {
    var before, after := signals[..k], signals[k + 1..];
    assert signals == before + [signals[k]] + after;
    FilterNone(Has(Correlation, id), before);
    FilterSnoc(Has(Correlation, id), before, signals[k]);
    FilterConcat(Has(Correlation, id), before + [signals[k]], after);
  }

  lemma RepoCountsSnoc(ws: seq<Workflow>, w: Workflow, now: int)
    ensures RepoCounts(ws + [w], now) == Recorded(RepoCounts(ws, now), FirstRepo(w), One(w, now))
  {
    assert (ws + [w])[..|ws|] == ws;
  }

  /** The items of the dictionary are the workflows, in order. */
  lemma ItemsAreWorkflows(order: seq<string>, groups: map<string, seq<Signal>>, kept: seq<Signal>, i: nat)
    requires Grouped(kept, Correlation, groups, order) && i < |order|
    ensures order[i] in groups && i < |Workflows(kept)|
    ensures Workflows(kept)[i] == Workflow(order[i], groups[order[i]])
  {
    assert order[i] in order;
  }

  method CountWorkflows(order: seq<string>, groups: map<string, seq<Signal>>, now: int, ghost kept: seq<Signal>)
    returns (overall: Counts, repoData: map<string, Counts>)
    requires Grouped(kept, Correlation, groups, order)
    ensures overall == CountsOf(Workflows(kept), now)
    ensures repoData == RepoCounts(Workflows(kept), now)
  {
    overall, repoData := ZERO, map[];
    ghost var ws := Workflows(kept);
    for i := 0 to |order|
      invariant CountedSoFar(ws, i, now, overall, repoData)
    {
      ItemsAreWorkflows(order, groups, kept, i);
      overall, repoData := CountNext(Workflow(order[i], groups[order[i]]), now, overall, repoData, ws, i);
    }
    assert ws[..|order|] == ws;
  }

  ghost predicate CountedSoFar(ws: seq<Workflow>, i: nat, now: int, overall: Counts, repoData: map<string, Counts>) {
    i <= |ws| && overall == CountsOf(ws[..i], now) && repoData == RepoCounts(ws[..i], now)
  }

  method CountNext(w: Workflow, now: int, overall: Counts, repoData: map<string, Counts>, ghost ws: seq<Workflow>,
                   ghost i: nat)
    returns (overall': Counts, repoData': map<string, Counts>)
    requires i < |ws| && ws[i] == w && CountedSoFar(ws, i, now, overall, repoData)
    ensures CountedSoFar(ws, i + 1, now, overall', repoData')
  {
    TakeSnoc(ws, i);
    CountsSnoc(ws[..i], w, now);
    RepoCountsSnoc(ws[..i], w, now);
    overall', repoData' := CountWorkflow(w, now, overall, repoData);
  }

  method CountWorkflow(w: Workflow, now: int, overall: Counts, repoData: map<string, Counts>)
    returns (overall': Counts, repoData': map<string, Counts>)
    ensures overall' == Plus(overall, One(w, now))
    ensures repoData' == Recorded(repoData, FirstRepo(w), One(w, now))
  {
    var isSinglePass := SinglePass(w);
    var started7, started30 := StartedSince(w, now - 7 * DAY), StartedSince(w, now - 30 * DAY);
    assert One(w, now) == Credits(started7, started30, isSinglePass);
    overall' := Credit(overall, started7, started30, isSinglePass);
    var repo := FirstRepo(w);
    var own := Credit(At(repoData, repo), started7, started30, isSinglePass);
    StoredIsRecorded(repoData, repo, own, One(w, now));
    repoData' := repoData[repo := own];
  }

  lemma StoredIsRecorded(m: map<string, Counts>, repo: string, own: Counts, c: Counts)
    requires own == Plus(At(m, repo), c)
    ensures m[repo := own] == Recorded(m, repo, c)
  {}

  method Credit(c: Counts, started7: bool, started30: bool, singlePass: bool) returns (r: Counts)
    ensures r == Plus(c, Credits(started7, started30, singlePass))
  {
    r := c;
    if started30 {
      r := r.(total30 := r.total30 + 1);
      if singlePass {
        r := r.(success30 := r.success30 + 1);
      }
    }
    if started7 {
      r := r.(total7 := r.total7 + 1);
      if singlePass {
        r := r.(success7 := r.success7 + 1);
      }
    }
  }

  method GetSinglePass(signals: seq<Signal>, filter: Option<string>, now: int) returns (m: SinglePassMetrics)
    ensures SinglePassFor(Workflows(Kept(signals, filter)), now, m)
  {
    var order, groups := GroupByCorrelation(signals, filter);
    var overall, repoData := CountWorkflows(order, groups, now, Kept(signals, filter));
    m := SinglePassMetrics(RatesOf(overall), overall, map repo | repo in repoData :: RatesOf(repoData[repo]));
  }

  lemma RecordedAt(m: map<string, Counts>, repo: string, c: Counts, k: string)
    ensures At(Recorded(m, repo, c), k) == if k == repo then Plus(At(m, k), c) else At(m, k)
  {}

  function FromRepo(repo: string): Workflow -> bool {
    w => FirstRepo(w) == repo
  }

  /** A repo's entry counts exactly the workflows whose first signal is of that repo. */
  lemma {:induction false} RepoCountsAt(ws: seq<Workflow>, now: int, repo: string)
    ensures At(RepoCounts(ws, now), repo) == CountsOf(Filter(FromRepo(repo), ws), now)
  {
    if ws != [] {
      var init, w := ws[..|ws| - 1], ws[|ws| - 1];
      assert ws == init + [w];
      RepoCountsAt(init, now, repo);
      RepoCountsSnoc(init, w, now);
      RecordedAt(RepoCounts(init, now), FirstRepo(w), One(w, now), repo);
      FilterSnoc(FromRepo(repo), init, w);
      CountsSnoc(Filter(FromRepo(repo), init), w, now);
    }
  }

  function Total7(c: Counts): nat { c.total7 }

  function Success7(c: Counts): nat { c.success7 }

  function Total30(c: Counts): nat { c.total30 }

  function Success30(c: Counts): nat { c.success30 }

  ghost predicate Additive(f: Counts -> nat) {
    f(ZERO) == 0 && forall a, b :: f(Plus(a, b)) == f(a) + f(b)
  }

  lemma {:induction false} RepoCountsSumBy(ws: seq<Workflow>, now: int, f: Counts -> nat)
    requires Additive(f)
    ensures SumBy(f, RepoCounts(ws, now)) == f(CountsOf(ws, now))
  {
    if ws == [] {
      assert CountsOf(ws, now) == ZERO;
    } else {
      var init, w := ws[..|ws| - 1], ws[|ws| - 1];
      assert ws == init + [w];
      RepoCountsSumBy(init, now, f);
      RepoCountsSnoc(init, w, now);
      CountsSnoc(init, w, now);
      var m, repo := RepoCounts(init, now), FirstRepo(w);
      SumPut(f, m, repo, Plus(At(m, repo), One(w, now)));
    }
  }

  /** The per-repo tallies add up to the overall counts, figure by figure. */
  lemma RepoCountsSum(ws: seq<Workflow>, now: int)
    ensures CountsOf(ws, now) == Counts(SumBy(Total7, RepoCounts(ws, now)), SumBy(Success7, RepoCounts(ws, now)),
                                        SumBy(Total30, RepoCounts(ws, now)), SumBy(Success30, RepoCounts(ws, now)))
  {
    RepoCountsSumBy(ws, now, Total7);
    RepoCountsSumBy(ws, now, Success7);
    RepoCountsSumBy(ws, now, Total30);
    RepoCountsSumBy(ws, now, Success30);
  }

  predicate WellOrdered(c: Counts) {
    c.success7 <= c.total7 <= c.total30 && c.success7 <= c.success30 <= c.total30
  }

  /** The 7-day counts never exceed the 30-day ones, nor successes the workflows they are among. */
  lemma WindowsNest(ws: seq<Workflow>, now: int)
    ensures WellOrdered(CountsOf(ws, now))
  {
    NumberImplies(Succeeded(now - 7 * DAY), Started(now - 7 * DAY), ws);
    NumberImplies(Started(now - 7 * DAY), Started(now - 30 * DAY), ws);
    NumberImplies(Succeeded(now - 7 * DAY), Succeeded(now - 30 * DAY), ws);
    NumberImplies(Succeeded(now - 30 * DAY), Started(now - 30 * DAY), ws);
  }

  // ----- Filtering and grouping --------------------------------------------------------

  /** No workflow that has a signal of the repo has one of another repo. */
  ghost predicate KeepsToItself(signals: seq<Signal>, repo: string) {
    forall s, t :: s in signals && t in signals && s.correlationId == t.correlationId && RepoOf(s) == repo
                   ==> RepoOf(t) == repo
  }

  /** When a repo filter shows the repo's own workflows. The empty id filters nothing, so it
      does only if every workflow starts there. */
  ghost predicate FilterShowsOwn(signals: seq<Signal>, repo: string) {
    if repo != "" then KeepsToItself(signals, repo)
    else forall w :: w in Workflows(signals) ==> FirstRepo(w) == ""
  }

  /** Filtering signals by a property of their id filters the ids. */
  lemma {:induction false} IdsOfFiltered(signals: seq<Signal>, p: Signal -> bool, q: string -> bool)
    requires forall s :: s in signals ==> (p(s) <==> q(s.correlationId))
    ensures Ids(Filter(p, signals)) == Filter(q, Ids(signals))
  {
    if signals != [] {
      var init, s := signals[..|signals| - 1], signals[|signals| - 1];
      assert signals == init + [s];
      assert s in signals && forall t :: t in init ==> t in signals;
      IdsOfFiltered(init, p, q);
      FilterSnoc(p, init, s);
      KeysSnoc(init, Correlation, s);
      KeysSnoc(Filter(p, init), Correlation, s);
      FilterSnoc(q, Ids(init), s.correlationId);
      FilterMember(q, Ids(init), s.correlationId);
    }
  }

  lemma WorkflowsOfSnoc(signals: seq<Signal>, ids: seq<string>, id: string)
    ensures WorkflowsOf(signals, ids + [id]) == WorkflowsOf(signals, ids) + [WorkflowOf(signals, id)]
  {}

  lemma {:induction false} FilterWorkflows(signals: seq<Signal>, p: Workflow -> bool, q: string -> bool,
                                           ids: seq<string>)
    requires forall id :: id in ids ==> (p(WorkflowOf(signals, id)) <==> q(id))
    ensures Filter(p, WorkflowsOf(signals, ids)) == WorkflowsOf(signals, Filter(q, ids))
  {
    if ids != [] {
      var init, id := ids[..|ids| - 1], ids[|ids| - 1];
      assert ids == init + [id];
      assert id in ids && forall i :: i in init ==> i in ids;
      FilterWorkflows(signals, p, q, init);
      WorkflowsOfSnoc(signals, init, id);
      FilterSnoc(p, WorkflowsOf(signals, init), WorkflowOf(signals, id));
      FilterSnoc(q, init, id);
      WorkflowsOfSnoc(signals, Filter(q, init), id);
    }
  }

  function IdFrom(signals: seq<Signal>, repo: string): string -> bool {
    id => FirstRepo(WorkflowOf(signals, id)) == repo
  }

  lemma SignalMember(signals: seq<Signal>, id: string, s: Signal)
    ensures s in SignalsOf(signals, id) <==> s in signals && s.correlationId == id
  {
    GroupMember(signals, Correlation, id, s);
  }

  lemma FromRepoMatches(signals: seq<Signal>, repo: string, s: Signal)
    requires KeepsToItself(signals, repo) && s in signals
    ensures RepoOf(s) == repo <==> IdFrom(signals, repo)(s.correlationId)
  {
    var first := SignalsOf(signals, s.correlationId);
    SignalMember(signals, s.correlationId, s);
    SignalMember(signals, s.correlationId, first[0]);
  }

  lemma SameGroup(signals: seq<Signal>, filter: Option<string>, id: string)
    requires forall s :: s in signals && s.correlationId == id ==> !Filters(filter, RepoOf(s))
    ensures WorkflowOf(Kept(signals, filter), id) == WorkflowOf(signals, id)
  {
    FilterTwice(Keep(filter), Has(Correlation, id), Has(Correlation, id), signals);
  }

  /** The workflows that a filter shows, and those that the unfiltered result counts. */
  function Shown(signals: seq<Signal>, repo: string): seq<Workflow> {
    Workflows(Kept(signals, Some(repo)))
  }

  function Owned(signals: seq<Signal>, repo: string): seq<Workflow> {
    Filter(FromRepo(repo), Workflows(signals))
  }

  lemma OwnWorkflowsShown(signals: seq<Signal>, repo: string)
    requires repo != "" && KeepsToItself(signals, repo)
    ensures Shown(signals, repo) == Owned(signals, repo)
  {
    var kept, q := Kept(signals, Some(repo)), IdFrom(signals, repo);
    forall s | s in signals
      ensures Keep(Some(repo))(s) <==> q(s.correlationId)
    {
      FromRepoMatches(signals, repo, s);
    }
    IdsOfFiltered(signals, Keep(Some(repo)), q);
    FilterWorkflows(signals, FromRepo(repo), q, Ids(signals));
    forall i | 0 <= i < |Ids(kept)|
      ensures WorkflowOf(kept, Ids(kept)[i]) == WorkflowOf(signals, Ids(kept)[i])
    {
      FilterMember(q, Ids(signals), Ids(kept)[i]);
      SameGroup(signals, Some(repo), Ids(kept)[i]);
    }
    assert WorkflowsOf(kept, Ids(kept)) == WorkflowsOf(signals, Ids(kept));
  }

  /** A workflow that the filter shows whole has only signals of the repo. */
  lemma ShownWholeIsOwn(signals: seq<Signal>, repo: string, s: Signal, t: Signal)
    requires repo != "" && Shown(signals, repo) == Owned(signals, repo)
    requires s in signals && t in signals && s.correlationId == t.correlationId && RepoOf(s) == repo
    ensures RepoOf(t) == repo
  {
    var kept, id := Kept(signals, Some(repo)), s.correlationId;
    FilterMember(Keep(Some(repo)), signals, s);
    IdsExact(kept);
    var i :| 0 <= i < |Ids(kept)| && Ids(kept)[i] == id;
    var w := Workflows(kept)[i];
    FilterMember(FromRepo(repo), Workflows(signals), w);
    assert w in Workflows(signals);
    assert SignalsOf(signals, id) == SignalsOf(kept, id);
    SignalMember(signals, id, t);
    SignalMember(kept, id, t);
    FilterMember(Keep(Some(repo)), signals, t);
  }

  /** The workflows seen under a repo filter are those that the unfiltered result counts for
      that repo if and only if the repo keeps to itself; for the empty id, if and only if every
      workflow starts there. What other repos share among themselves does not matter. */
  lemma FilteredWorkflows(signals: seq<Signal>, repo: string)
    ensures Shown(signals, repo) == Owned(signals, repo)
            <==> FilterShowsOwn(signals, repo)
  {
    if repo == "" {
      FilterAll(Keep(Some("")), signals);
      FilterFull(FromRepo(""), Workflows(signals));
      if FilterShowsOwn(signals, "") {
        FilterAll(FromRepo(""), Workflows(signals));
      }
    } else if KeepsToItself(signals, repo) {
      OwnWorkflowsShown(signals, repo);
    } else {
      var s, t :| s in signals && t in signals && s.correlationId == t.correlationId && RepoOf(s) == repo
                  && RepoOf(t) != repo;
      if Shown(signals, repo) == Owned(signals, repo) {
        ShownWholeIsOwn(signals, repo, s, t);
        assert false;
      }
    }
  }

  /** Then all figures under the filter equal the repo's unfiltered tallies. */
  lemma FilteredCounts(signals: seq<Signal>, repo: string, now: int)
    requires FilterShowsOwn(signals, repo)
    ensures CountsOf(Shown(signals, repo), now)
         == At(RepoCounts(Workflows(Kept(signals, None)), now), repo)
  {
    FilterAll(Keep(None), signals);
    FilteredWorkflows(signals, repo);
    RepoCountsAt(Workflows(signals), now, repo);
  }

  /** Every workflow that the filter shows starts in the repo. */
  ghost predicate StartsAtHome(signals: seq<Signal>, repo: string) {
    forall id :: id in Ids(Kept(signals, Some(repo))) ==> FirstRepo(WorkflowOf(signals, id)) == repo
  }

  /** The ids of the workflows that the unfiltered result counts for a repo. */
  function OwnIds(signals: seq<Signal>, repo: string): seq<string> {
    Filter(IdFrom(signals, repo), Ids(signals))
  }

  function StartedId(signals: seq<Signal>, cutoff: int): string -> bool {
    id => StartedSince(WorkflowOf(signals, id), cutoff)
  }

  lemma {:induction false} NumberOfIds(signals: seq<Signal>, cutoff: int, ids: seq<string>)
    ensures Number(Started(cutoff), WorkflowsOf(signals, ids)) == Number(StartedId(signals, cutoff), ids)
  {
    if ids != [] {
      var init, id := ids[..|ids| - 1], ids[|ids| - 1];
      assert ids == init + [id];
      NumberOfIds(signals, cutoff, init);
      WorkflowsOfSnoc(signals, init, id);
      NumberSnoc(Started(cutoff), WorkflowsOf(signals, init), WorkflowOf(signals, id));
      NumberSnoc(StartedId(signals, cutoff), init, id);
    }
  }

  lemma FirstKept<T>(p: T -> bool, xs: seq<T>)
    requires xs != [] && p(xs[0])
    ensures Filter(p, xs) != [] && Filter(p, xs)[0] == xs[0]
  {
    assert xs == [xs[0]] + xs[1..];
    FilterConcat(p, [xs[0]], xs[1..]);
    FilterAll(p, [xs[0]]);
  }

  lemma GroupOfKept(signals: seq<Signal>, filter: Option<string>, id: string)
    ensures SignalsOf(Kept(signals, filter), id) == Filter(Keep(filter), SignalsOf(signals, id))
  {
    var both := (s: Signal) => Keep(filter)(s) && Has(Correlation, id)(s);
    FilterTwice(Keep(filter), Has(Correlation, id), both, signals);
    FilterTwice(Has(Correlation, id), Keep(filter), both, signals);
  }

  /** A workflow that starts in the repo is shown under its filter, and starts there alike. */
  lemma OwnIdShown(signals: seq<Signal>, repo: string, id: string)
    requires id in OwnIds(signals, repo)
    ensures id in Ids(Kept(signals, Some(repo)))
    ensures forall c :: StartedId(Kept(signals, Some(repo)), c)(id) == StartedId(signals, c)(id)
  {
    var kept := Kept(signals, Some(repo));
    FilterMember(IdFrom(signals, repo), Ids(signals), id);
    IdsExact(signals);
    GroupOfKept(signals, Some(repo), id);
    FirstKept(Keep(Some(repo)), SignalsOf(signals, id));
    var s := SignalsOf(kept, id)[0];
    SignalMember(kept, id, s);
    IdsExact(kept);
  }

  /** How many workflows the filter shows, and how many the unfiltered result counts. */
  lemma StartedFigures(signals: seq<Signal>, repo: string, cutoff: int)
    ensures Number(Started(cutoff), Shown(signals, repo))
         == Number(StartedId(Kept(signals, Some(repo)), cutoff), Ids(Kept(signals, Some(repo))))
    ensures Number(Started(cutoff), Owned(signals, repo))
         == Number(StartedId(signals, cutoff), OwnIds(signals, repo))
  {
    NumberOfIds(Kept(signals, Some(repo)), cutoff, Ids(Kept(signals, Some(repo))));
    FilterWorkflows(signals, FromRepo(repo), IdFrom(signals, repo), Ids(signals));
    NumberOfIds(signals, cutoff, OwnIds(signals, repo));
  }

  /** As many workflows are shown as counted, among those begun since the cutoff. */
  ghost predicate SameStarted(signals: seq<Signal>, repo: string, cutoff: int) {
    Number(Started(cutoff), Shown(signals, repo))
    == Number(Started(cutoff), Owned(signals, repo))
  }

  lemma TotalsAgreeAtHome(signals: seq<Signal>, repo: string, cutoff: int)
    requires StartsAtHome(signals, repo)
    ensures SameStarted(signals, repo, cutoff)
  {
    var kept := Kept(signals, Some(repo));
    var shown, own := Ids(kept), OwnIds(signals, repo);
    IdsExact(kept);
    IdsExact(signals);
    DistinctFilter(IdFrom(signals, repo), Ids(signals));
    forall id
      ensures id in shown <==> id in own
      ensures id in own ==> StartedId(kept, cutoff)(id) == StartedId(signals, cutoff)(id)
    {
      if id in own {
        OwnIdShown(signals, repo, id);
      } else if id in shown {
        ShownIsListed(signals, repo, id);
        FilterMember(IdFrom(signals, repo), Ids(signals), id);
      }
    }
    SameElements(shown, own);
    NumberPermuted(StartedId(kept, cutoff), shown, own);
    NumberCongruent(StartedId(kept, cutoff), StartedId(signals, cutoff), own);
    StartedFigures(signals, repo, cutoff);
  }

  lemma ShownIsListed(signals: seq<Signal>, repo: string, id: string)
    requires id in Ids(Kept(signals, Some(repo)))
    ensures id in Ids(signals)
  {
    var kept := Kept(signals, Some(repo));
    IdsExact(kept);
    IdsExact(signals);
    var s := SignalsOf(kept, id)[0];
    SignalMember(kept, id, s);
    FilterMember(Keep(Some(repo)), signals, s);
  }

  /** A time before every signal. */
  lemma {:induction false} BeforeAll(signals: seq<Signal>) returns (cutoff: int)
    ensures forall s :: s in signals ==> s.timestamp >= cutoff
  {
    if signals == [] {
      cutoff := 0;
    } else {
      var init, last := signals[..|signals| - 1], signals[|signals| - 1];
      assert signals == init + [last];
      var c := BeforeAll(init);
      cutoff := if c < last.timestamp then c else last.timestamp;
    }
  }

  lemma AllStarted(signals: seq<Signal>, cutoff: int, ids: seq<string>)
    requires forall s :: s in signals ==> s.timestamp >= cutoff
    requires forall id :: id in ids ==> id in Ids(signals)
    ensures Number(StartedId(signals, cutoff), ids) == |ids|
  {
    IdsExact(signals);
    forall id | id in ids
      ensures StartedId(signals, cutoff)(id)
    {
      SignalMember(signals, id, SignalsOf(signals, id)[0]);
    }
    FilterAll(StartedId(signals, cutoff), ids);
  }

  lemma HomeWhenTotalsAgree(signals: seq<Signal>, repo: string, cutoff: int)
    requires forall s :: s in signals ==> s.timestamp >= cutoff
    requires SameStarted(signals, repo, cutoff)
    ensures StartsAtHome(signals, repo)
  {
    var kept := Kept(signals, Some(repo));
    var shown, own := Ids(kept), OwnIds(signals, repo);
    StartedFigures(signals, repo, cutoff);
    forall s | s in kept
      ensures s in signals
    {
      FilterMember(Keep(Some(repo)), signals, s);
    }
    forall id | id in own
      ensures id in Ids(signals) && id in shown
    {
      FilterMember(IdFrom(signals, repo), Ids(signals), id);
      OwnIdShown(signals, repo, id);
    }
    AllStarted(kept, cutoff, shown);
    AllStarted(signals, cutoff, own);
    IdsExact(kept);
    IdsExact(signals);
    DistinctFilter(IdFrom(signals, repo), Ids(signals));
    SameLength(own, shown);
    forall id | id in shown
      ensures FirstRepo(WorkflowOf(signals, id)) == repo
    {
      FilterMember(IdFrom(signals, repo), Ids(signals), id);
    }
  }

  ghost predicate TotalsAgree(signals: seq<Signal>, repo: string, now: int) {
    var shown := CountsOf(Shown(signals, repo), now);
    var own := At(RepoCounts(Workflows(Kept(signals, None)), now), repo);
    shown.total7 == own.total7 && shown.total30 == own.total30
  }

  lemma TotalsAreStarted(signals: seq<Signal>, repo: string, now: int)
    ensures TotalsAgree(signals, repo, now)
            <==> SameStarted(signals, repo, now - 7 * DAY) && SameStarted(signals, repo, now - 30 * DAY)
  {
    FilterAll(Keep(None), signals);
    RepoCountsAt(Workflows(signals), now, repo);
  }

  lemma AgreesAtHome(signals: seq<Signal>, repo: string, now: int)
    requires StartsAtHome(signals, repo)
    ensures TotalsAgree(signals, repo, now)
  {
    TotalsAgreeAtHome(signals, repo, now - 7 * DAY);
    TotalsAgreeAtHome(signals, repo, now - 30 * DAY);
    TotalsAreStarted(signals, repo, now);
  }

  lemma AgreedMeansSameStarted(signals: seq<Signal>, repo: string, cutoff: int)
    ensures TotalsAgree(signals, repo, cutoff + 30 * DAY) ==> SameStarted(signals, repo, cutoff)
  {
    TotalsAreStarted(signals, repo, cutoff + 30 * DAY);
  }

  ghost predicate TotalsAlwaysAgree(signals: seq<Signal>, repo: string) {
    forall now :: TotalsAgree(signals, repo, now)
  }

  /** The numbers of workflows under a repo filter agree with the repo's unfiltered tallies at
      every time if and only if every workflow that the filter shows starts in the repo. */
  lemma FilteredTotals(signals: seq<Signal>, repo: string)
    ensures TotalsAlwaysAgree(signals, repo) <==> StartsAtHome(signals, repo)
  {
    if StartsAtHome(signals, repo) {
      forall now
        ensures TotalsAgree(signals, repo, now)
      {
        AgreesAtHome(signals, repo, now);
      }
    }
    if TotalsAlwaysAgree(signals, repo) {
      var cutoff := BeforeAll(signals);
      assert SameStarted(signals, repo, cutoff) by {
        AlwaysMeansThen(signals, repo, cutoff + 30 * DAY);
        AgreedMeansSameStarted(signals, repo, cutoff);
      }
      HomeWhenTotalsAgree(signals, repo, cutoff);
    }
  }

  lemma AlwaysMeansThen(signals: seq<Signal>, repo: string, now: int)
    ensures TotalsAlwaysAgree(signals, repo) ==> TotalsAgree(signals, repo, now)
  {}

  // ----- The success figures -----------------------------------------------------------

  predicate StartedAt(w: Workflow, time: int) {
    w.signals != [] && w.signals[0].timestamp == time
  }

  function PassedAt(time: int): Workflow -> bool {
    w => StartedAt(w, time) && SinglePass(w)
  }

  lemma {:induction false} SucceededFrom(ws: seq<Workflow>, cutoff: int)
    ensures Number(Succeeded(cutoff), ws) == Number(PassedAt(cutoff), ws) + Number(Succeeded(cutoff + 1), ws)
  {
    if ws != [] {
      var init, w := ws[..|ws| - 1], ws[|ws| - 1];
      assert ws == init + [w];
      SucceededFrom(init, cutoff);
      NumberSnoc(Succeeded(cutoff), init, w);
      NumberSnoc(PassedAt(cutoff), init, w);
      NumberSnoc(Succeeded(cutoff + 1), init, w);
    }
  }

  /** A time after the start of every workflow. */
  lemma {:induction false} AfterStarts(ws: seq<Workflow>) returns (top: int)
    ensures forall c :: c >= top ==> Number(Succeeded(c), ws) == 0
  {
    if ws == [] {
      top := 0;
    } else {
      var init, w := ws[..|ws| - 1], ws[|ws| - 1];
      assert ws == init + [w];
      var t := AfterStarts(init);
      top := if w.signals != [] && w.signals[0].timestamp >= t then w.signals[0].timestamp + 1 else t;
      forall c | c >= top
        ensures Number(Succeeded(c), ws) == 0
      {
        NumberSnoc(Succeeded(c), init, w);
      }
    }
  }

  ghost predicate SameSucceeded(a: seq<Workflow>, b: seq<Workflow>, cutoff: int) {
    Number(Succeeded(cutoff), a) == Number(Succeeded(cutoff), b)
  }

  ghost predicate SamePassedAt(a: seq<Workflow>, b: seq<Workflow>, time: int) {
    Number(PassedAt(time), a) == Number(PassedAt(time), b)
  }

  lemma {:induction false} SucceededAddUp(a: seq<Workflow>, b: seq<Workflow>, cutoff: int, top: int)
    requires forall time :: SamePassedAt(a, b, time)
    requires forall c :: c >= top ==> SameSucceeded(a, b, c)
    ensures SameSucceeded(a, b, cutoff)
    decreases top - cutoff
  {
    if cutoff < top {
      SucceededAddUp(a, b, cutoff + 1, top);
      SucceededFrom(a, cutoff);
      SucceededFrom(b, cutoff);
      assert SamePassedAt(a, b, cutoff);
    }
  }

  ghost predicate SuccessesAlwaysAgree(a: seq<Workflow>, b: seq<Workflow>) {
    forall cutoff :: SameSucceeded(a, b, cutoff)
  }

  /** For every start time, as many of the one as of the other passed at once. */
  ghost predicate PassAlike(a: seq<Workflow>, b: seq<Workflow>) {
    forall time :: SamePassedAt(a, b, time)
  }

  lemma SuccessesByStart(a: seq<Workflow>, b: seq<Workflow>)
    ensures SuccessesAlwaysAgree(a, b) <==> PassAlike(a, b)
  {
    if PassAlike(a, b) {
      var s := AfterStarts(a);
      var t := AfterStarts(b);
      forall cutoff
        ensures SameSucceeded(a, b, cutoff)
      {
        SucceededAddUp(a, b, cutoff, if s < t then t else s);
      }
    }
    if SuccessesAlwaysAgree(a, b) {
      forall time
        ensures SamePassedAt(a, b, time)
      {
        assert SameSucceeded(a, b, time) && SameSucceeded(a, b, time + 1);
        SucceededFrom(a, time);
        SucceededFrom(b, time);
      }
    }
  }

  ghost predicate FiguresAgree(signals: seq<Signal>, repo: string, now: int) {
    CountsOf(Shown(signals, repo), now) == At(RepoCounts(Workflows(Kept(signals, None)), now), repo)
  }

  ghost predicate FiguresAlwaysAgree(signals: seq<Signal>, repo: string) {
    forall now :: FiguresAgree(signals, repo, now)
  }

  lemma FiguresSplit(signals: seq<Signal>, repo: string, now: int)
    ensures FiguresAgree(signals, repo, now)
            <==> TotalsAgree(signals, repo, now)
                 && SameSucceeded(Shown(signals, repo), Owned(signals, repo), now - 7 * DAY)
                 && SameSucceeded(Shown(signals, repo), Owned(signals, repo), now - 30 * DAY)
  {
    FilterAll(Keep(None), signals);
    RepoCountsAt(Workflows(signals), now, repo);
  }

  /** All four figures under a repo filter agree with the repo's unfiltered tallies at every time
      if and only if every workflow shown starts in the repo and, for every start time, as many
      of the workflows shown as of the repo's own passed at once. */
  lemma FilteredFigures(signals: seq<Signal>, repo: string)
    ensures FiguresAlwaysAgree(signals, repo)
            <==> StartsAtHome(signals, repo) && PassAlike(Shown(signals, repo), Owned(signals, repo))
  {
    FilteredTotals(signals, repo);
    SuccessesByStart(Shown(signals, repo), Owned(signals, repo));
    if TotalsAlwaysAgree(signals, repo) && SuccessesAlwaysAgree(Shown(signals, repo), Owned(signals, repo)) {
      forall now
        ensures FiguresAgree(signals, repo, now)
      {
        FiguresSplit(signals, repo, now);
        AlwaysMeansThen(signals, repo, now);
      }
    }
    if FiguresAlwaysAgree(signals, repo) {
      forall now
        ensures TotalsAgree(signals, repo, now)
        ensures SameSucceeded(Shown(signals, repo), Owned(signals, repo), now - 30 * DAY)
      {
        FiguresThen(signals, repo, now);
        FiguresSplit(signals, repo, now);
      }
      forall cutoff
        ensures SameSucceeded(Shown(signals, repo), Owned(signals, repo), cutoff)
      {
        assert cutoff + 30 * DAY - 30 * DAY == cutoff;
        FiguresThen(signals, repo, cutoff + 30 * DAY);
        FiguresSplit(signals, repo, cutoff + 30 * DAY);
      }
    }
  }

  lemma FiguresThen(signals: seq<Signal>, repo: string, now: int)
    ensures FiguresAlwaysAgree(signals, repo) ==> FiguresAgree(signals, repo, now)
  {}

  lemma OneWorkflow(signals: seq<Signal>, id: string)
    requires signals != [] && forall s :: s in signals ==> s.correlationId == id
    ensures Workflows(signals) == [Workflow(id, signals)]
  {
    assert forall s :: s in signals ==> Correlation(s) == id;
    GroupAll(signals, Correlation, id);
    OneId(signals, id);
  }

  lemma {:induction false} OneId(signals: seq<Signal>, id: string)
    requires signals != [] && forall s :: s in signals ==> s.correlationId == id
    ensures Ids(signals) == [id]
  {
    var init, last := signals[..|signals| - 1], signals[|signals| - 1];
    assert signals == init + [last] && last in signals;
    assert forall s :: s in init ==> s in signals;
    KeysSnoc(init, Correlation, last);
    if init != [] {
      OneId(init, id);
    } else {
      assert Ids(init) == [];
    }
  }

  lemma CountOneWorkflow(signals: seq<Signal>, id: string, now: int)
    requires signals != [] && forall s :: s in signals ==> s.correlationId == id
    ensures CountsOf(Workflows(signals), now) == One(Workflow(id, signals), now)
    ensures forall repo :: repo != RepoOf(signals[0]) ==> At(RepoCounts(Workflows(signals), now), repo) == ZERO
  {
    OneWorkflow(signals, id);
    CountAlone(Workflow(id, signals), now);
  }

  lemma CountAlone(w: Workflow, now: int)
    ensures CountsOf([w], now) == One(w, now)
    ensures forall repo :: repo != FirstRepo(w) ==> At(RepoCounts([w], now), repo) == ZERO
  {
    CountsSnoc([], w, now);
    assert [] + [w] == [w];
    assert CountsOf([], now) == ZERO && Plus(ZERO, One(w, now)) == One(w, now);
    RepoCountsSnoc([], w, now);
    forall repo | repo != FirstRepo(w)
      ensures At(RepoCounts([w], now), repo) == ZERO
    {
      RecordedAt(RepoCounts([], now), FirstRepo(w), One(w, now), repo);
    }
  }

  lemma KeptOfTwo(s: Signal, t: Signal, repo: string)
    requires RepoOf(s) != repo && RepoOf(t) == repo != ""
    ensures Kept([s, t], Some(repo)) == [t] && Kept([s, t], None) == [s, t]
  {
    assert [s] + [t] == [s, t];
    FilterAll(Keep(None), [s, t]);
    FilterConcat(Keep(Some(repo)), [s], [t]);
    FilterNone(Keep(Some(repo)), [s]);
    FilterAll(Keep(Some(repo)), [t]);
  }

  /** Where the condition fails the figures may: a recent workflow that starts in one repo and goes on in another
      counts under a filter for the second, but not in the second's unfiltered tally. */
  lemma SpanningWorkflow(s: Signal, t: Signal, repo: string, now: int)
    requires s.correlationId == t.correlationId && RepoOf(s) != repo && RepoOf(t) == repo != ""
    requires t.timestamp >= now - 30 * DAY
    ensures CountsOf(Workflows(Kept([s, t], Some(repo))), now).total30 == 1
    ensures At(RepoCounts(Workflows(Kept([s, t], None)), now), repo) == ZERO
  {
    KeptOfTwo(s, t, repo);
    CountOneWorkflow([t], t.correlationId, now);
    CountOneWorkflow([s, t], s.correlationId, now);
  }

  // ----- What the figures are ----------------------------------------------------------

  /** Signal `k` is the first with the id. */
  predicate OpensAt(signals: seq<Signal>, id: string, k: nat) {
    && k < |signals| && signals[k].correlationId == id
    && forall j :: 0 <= j < k ==> signals[j].correlationId != id
  }

  /** The first signal with the id came at the cutoff or later. */
  ghost predicate Began(signals: seq<Signal>, id: string, cutoff: int) {
    exists k: nat :: OpensAt(signals, id, k) && signals[k].timestamp >= cutoff
  }

  /** The first signal with the id is of the repo; one without a repo is of `unknown`. */
  ghost predicate BeganIn(signals: seq<Signal>, id: string, repo: string) {
    exists k: nat :: OpensAt(signals, id, k)
                     && (signals[k].repo == Some(repo) || (signals[k].repo == None && repo == "unknown"))
  }

  /** Verification or QA passed in the workflow of the id, and neither ever failed in it. */
  ghost predicate PassedAtOnce(signals: seq<Signal>, id: string) {
    && (exists s :: s in signals && s.correlationId == id && (s.event == VerificationPassed || s.event == QaPassed))
    && (forall s :: s in signals && s.correlationId == id ==>
          && s.event != VerificationFailed && s.event != VerificationExhausted
          && s.event != QaDefect && s.event != QaRework)
  }

  lemma FirstSignal(signals: seq<Signal>, id: string) returns (k: nat)
    requires id in Ids(signals)
    ensures OpensAt(signals, id, k)
    ensures SignalsOf(signals, id) != [] && SignalsOf(signals, id)[0] == signals[k]
    ensures forall l: nat :: OpensAt(signals, id, l) ==> l == k
  {
    IdsExact(signals);
    var s := SignalsOf(signals, id)[0];
    SignalMember(signals, id, s);
    var i: nat :| i < |signals| && signals[i] == s;
    k := FirstAtOrBefore(signals, id, i);
    FirstOfGroup(signals, id, k);
  }

  lemma {:induction false} FirstAtOrBefore(signals: seq<Signal>, id: string, i: nat) returns (k: nat)
    requires i < |signals| && signals[i].correlationId == id
    ensures k <= i && OpensAt(signals, id, k)
  {
    if j: nat :| j < i && signals[j].correlationId == id {
      k := FirstAtOrBefore(signals, id, j);
    } else {
      k := i;
    }
  }

  lemma RepoInFull(s: Signal, repo: string)
    ensures RepoOf(s) == repo <==> s.repo == Some(repo) || (s.repo == None && repo == "unknown")
  {
    assert s.repo.Some? ==> s.repo == Some(s.repo.value);
  }

  /** A workflow in full: when it began, where, and whether it passed at once. */
  lemma WorkflowInFull(signals: seq<Signal>, id: string, cutoff: int, repo: string)
    requires id in Ids(signals)
    ensures var w := WorkflowOf(signals, id);
      && (StartedSince(w, cutoff) <==> Began(signals, id, cutoff))
      && (FirstRepo(w) == repo <==> BeganIn(signals, id, repo))
  {
    var k := FirstSignal(signals, id);
    RepoInFull(signals[k], repo);
  }

  lemma PassInFull(signals: seq<Signal>, id: string)
    ensures SinglePass(WorkflowOf(signals, id)) <==> PassedAtOnce(signals, id)
  {
    var own := SignalsOf(signals, id);
    forall s
      ensures s in own <==> s in signals && s.correlationId == id
    {
      SignalMember(signals, id, s);
    }
    assert forall i :: 0 <= i < |own| ==> own[i] in own;
    if PassedAtOnce(signals, id) {
      var s :| s in own && (s.event == VerificationPassed || s.event == QaPassed);
      var i :| 0 <= i < |own| && own[i] == s;
      assert IsSuccess(own[i]);
    }
    if SinglePass(WorkflowOf(signals, id)) {
      forall s | s in signals && s.correlationId == id
        ensures !IsFailure(s)
      {
        var i :| 0 <= i < |own| && own[i] == s;
      }
    }
  }

  /** Counting workflows is counting the ids whose workflows qualify. */
  lemma NumberIsSize(signals: seq<Signal>, p: Workflow -> bool, chosen: set<string>)
    requires forall id :: id in chosen <==> id in Ids(signals) && p(WorkflowOf(signals, id))
    ensures Number(p, Workflows(signals)) == |chosen|
  {
    var q := (id: string) => p(WorkflowOf(signals, id));
    var kept := Filter(q, Ids(signals));
    FilterWorkflows(signals, p, q, Ids(signals));
    IdsExact(signals);
    DistinctFilter(q, Ids(signals));
    DistinctSize(kept);
    forall id
      ensures id in kept <==> id in chosen
    {
      FilterMember(q, Ids(signals), id);
    }
    assert (set id | id in kept) == chosen;
  }

  ghost function AllIds(signals: seq<Signal>): set<string> {
    set s | s in signals :: s.correlationId
  }

  ghost function BegunIds(signals: seq<Signal>, cutoff: int): set<string> {
    set id | id in AllIds(signals) && Began(signals, id, cutoff)
  }

  ghost function PassedIds(signals: seq<Signal>, cutoff: int): set<string> {
    set id | id in BegunIds(signals, cutoff) && PassedAtOnce(signals, id)
  }

  ghost function IdsOfRepo(signals: seq<Signal>, repo: string): set<string> {
    set id | id in AllIds(signals) && BeganIn(signals, id, repo)
  }

  lemma IdsAreAll(signals: seq<Signal>, id: string)
    ensures id in Ids(signals) <==> id in AllIds(signals)
  {
    IdsExact(signals);
    if id in Ids(signals) {
      var s := SignalsOf(signals, id)[0];
      SignalMember(signals, id, s);
    }
  }

  lemma BegunCount(signals: seq<Signal>, cutoff: int)
    ensures Number(Started(cutoff), Workflows(signals)) == |BegunIds(signals, cutoff)|
    ensures Number(Succeeded(cutoff), Workflows(signals)) == |PassedIds(signals, cutoff)|
  {
    forall id
      ensures id in BegunIds(signals, cutoff)
              <==> id in Ids(signals) && Started(cutoff)(WorkflowOf(signals, id))
      ensures id in PassedIds(signals, cutoff)
              <==> id in Ids(signals) && Succeeded(cutoff)(WorkflowOf(signals, id))
    {
      QualifiesInFull(signals, id, cutoff);
    }
    NumberIsSize(signals, Started(cutoff), BegunIds(signals, cutoff));
    NumberIsSize(signals, Succeeded(cutoff), PassedIds(signals, cutoff));
  }

  lemma QualifiesInFull(signals: seq<Signal>, id: string, cutoff: int)
    ensures id in BegunIds(signals, cutoff) <==> id in Ids(signals) && Started(cutoff)(WorkflowOf(signals, id))
    ensures id in PassedIds(signals, cutoff) <==> id in Ids(signals) && Succeeded(cutoff)(WorkflowOf(signals, id))
  {
    IdsAreAll(signals, id);
    if id in Ids(signals) {
      WorkflowInFull(signals, id, cutoff, "");
      PassInFull(signals, id);
    }
  }

  /** The four figures in full: the ids whose first signal came in the last 7 and 30 days, and those
      among them in whose signals verification or QA passed and neither failed. */
  lemma FiguresInFull(signals: seq<Signal>, now: int)
    ensures CountsOf(Workflows(signals), now)
         == Counts(|BegunIds(signals, now - 604800)|, |PassedIds(signals, now - 604800)|,
                   |BegunIds(signals, now - 2592000)|, |PassedIds(signals, now - 2592000)|)
  {
    BegunCount(signals, now - 604800);
    BegunCount(signals, now - 2592000);
  }

  function OfRepoAnd(repo: string, p: Workflow -> bool): Workflow -> bool {
    w => FromRepo(repo)(w) && p(w)
  }

  /** A repo's figures in full: the same, of the ids whose first signal is of the repo. */
  lemma RepoFiguresInFull(signals: seq<Signal>, now: int, repo: string)
    ensures var own := IdsOfRepo(signals, repo);
      At(RepoCounts(Workflows(signals), now), repo)
      == Counts(|own * BegunIds(signals, now - 604800)|, |own * PassedIds(signals, now - 604800)|,
                |own * BegunIds(signals, now - 2592000)|, |own * PassedIds(signals, now - 2592000)|)
  {
    RepoCountsAt(Workflows(signals), now, repo);
    RepoCount(signals, repo, now - 604800);
    RepoCount(signals, repo, now - 2592000);
  }

  lemma RepoCount(signals: seq<Signal>, repo: string, cutoff: int)
    ensures var ws, own := Filter(FromRepo(repo), Workflows(signals)), IdsOfRepo(signals, repo);
      && Number(Started(cutoff), ws) == |own * BegunIds(signals, cutoff)|
      && Number(Succeeded(cutoff), ws) == |own * PassedIds(signals, cutoff)|
  {
    NumberOfRepo(signals, repo, Started(cutoff), BegunIds(signals, cutoff), cutoff);
    NumberOfRepo(signals, repo, Succeeded(cutoff), PassedIds(signals, cutoff), cutoff);
  }

  lemma NumberOfRepo(signals: seq<Signal>, repo: string, p: Workflow -> bool, chosen: set<string>, cutoff: int)
    requires (p, chosen) == (Started(cutoff), BegunIds(signals, cutoff))
             || (p, chosen) == (Succeeded(cutoff), PassedIds(signals, cutoff))
    ensures Number(p, Filter(FromRepo(repo), Workflows(signals))) == |IdsOfRepo(signals, repo) * chosen|
  {
    FilterTwice(FromRepo(repo), p, OfRepoAnd(repo, p), Workflows(signals));
    forall id
      ensures id in IdsOfRepo(signals, repo) * chosen
              <==> id in Ids(signals) && OfRepoAnd(repo, p)(WorkflowOf(signals, id))
    {
      QualifiesInFull(signals, id, cutoff);
      IdsAreAll(signals, id);
      if id in Ids(signals) {
        WorkflowInFull(signals, id, cutoff, repo);
      }
    }
    NumberIsSize(signals, OfRepoAnd(repo, p), IdsOfRepo(signals, repo) * chosen);
  }

  /** The rates in full: each is the share of its successes, and zero without workflows. */
  lemma RatesInFull(c: Counts)
    ensures var r := RatesOf(c);
      && r.rate7 * c.total7 as real == (if c.total7 == 0 then 0.0 else c.success7 as real)
      && r.rate30 * c.total30 as real == (if c.total30 == 0 then 0.0 else c.success30 as real)
      && (c.total7 == 0 ==> r.rate7 == 0.0) && (c.total30 == 0 ==> r.rate30 == 0.0)
  {
    RateTimes(c.success7, c.total7);
    RateTimes(c.success30, c.total30);
  }

  lemma RateTimes(success: nat, total: nat)
    ensures total > 0 ==> Rate(success, total) * total as real == success as real
  {
    if total > 0 {
      var t := total as real;
      assert success as real / t * t == success as real;
    }
  }

  /** The filter in full: without a repo id, or with the empty one, every signal is kept; else those
      of the repo. */
  lemma KeptInFull(signals: seq<Signal>, filter: Option<string>, s: Signal)
    ensures s in Kept(signals, filter) <==>
            s in signals && (filter == None || filter == Some("") || RepoOf(s) == filter.value)
    ensures s in Loopbacks(signals, filter) <==> s in Kept(signals, filter) && s.event == VerificationFailed
  {
    FilterMember(Keep(filter), signals, s);
    FilterMember(Hit(filter), signals, s);
    assert filter.Some? ==> filter == Some(filter.value);
  }

  /** The categories in full: a step about lint, else about test, else about security, else other. */
  lemma CategoryInFull(step: string)
    ensures var c := FirstMentioned(step, Keywords());
      && (c == Lint <==> Contains(step, "lint"))
      && (c == Test <==> !Contains(step, "lint") && Contains(step, "test"))
      && (c == Security <==> !Contains(step, "lint") && !Contains(step, "test") && Contains(step, "security"))
      && (c == Other <==> !Contains(step, "lint") && !Contains(step, "test") && !Contains(step, "security"))
  {
    var table := Keywords();
    LongerKeyword(step, "verify_lint", "verify_", "lint");
    LongerKeyword(step, "verify_test", "verify_", "test");
    LongerKeyword(step, "verify_security", "verify_", "security");
    MentionsEither(step, "verify_lint", "lint");
    MentionsEither(step, "verify_test", "test");
    MentionsEither(step, "verify_security", "security");
    FirstOfThree(step, table[0], table[1], table[2]);
    assert table == [table[0], table[1], table[2]];
  }

  lemma LongerKeyword(step: string, longer: string, lead: string, keyword: string)
    requires longer == lead + keyword
    ensures Contains(step, longer) ==> Contains(step, keyword)
  {
    if Contains(step, longer) {
      var i: nat :| i <= |step| && OccursAt(step, longer, i);
      assert step[i..i + |longer|][|lead|..] == keyword;
      assert OccursAt(step, keyword, i + |lead|);
    }
  }

  lemma MentionsEither(step: string, a: string, b: string)
    ensures Mentions(step, [a, b]) <==> Contains(step, a) || Contains(step, b)
  {
    assert [a, b][0] == a && [a, b][1] == b;
  }

  lemma FirstOfThree(step: string, a: (Category, seq<string>), b: (Category, seq<string>),
                     c: (Category, seq<string>))
    ensures FirstMentioned(step, [a, b, c])
         == if Mentions(step, a.1) then a.0 else if Mentions(step, b.1) then b.0
            else if Mentions(step, c.1) then c.0 else Other
  {
    assert [a, b, c][1..] == [b, c] && [b, c][1..] == [c];
    assert [c][1..] == [];
    assert FirstMentioned(step, [c]) == if Mentions(step, c.1) then c.0 else Other;
    assert FirstMentioned(step, [b, c]) == if Mentions(step, b.1) then b.0 else FirstMentioned(step, [c]);
  }

  /** A loopback counts as lint, test or security by the keywords in its step. */
  predicate CountsAs(lower: Lower, c: Category, s: Signal) {
    var step := lower(if s.step.StepText? then s.step.text else "");
    match c
    case Lint => Contains(step, "lint")
    case Test => !Contains(step, "lint") && Contains(step, "test")
    case Security => !Contains(step, "lint") && !Contains(step, "test") && Contains(step, "security")
    case Other => !Contains(step, "lint") && !Contains(step, "test") && !Contains(step, "security")
  }

  function Counting(lower: Lower, c: Category): Signal -> bool {
    s => CountsAs(lower, c, s)
  }

  lemma CategoryCounts(lower: Lower, hits: seq<Signal>, c: Category)
    ensures CountIn(lower, hits, c) == Number(Counting(lower, c), hits)
  {
    forall s | s in hits
      ensures Has(CategoryOf(lower), c)(s) <==> Counting(lower, c)(s)
    {
      CategoryInFull(Lowered(lower, s));
    }
    NumberCongruent(Has(CategoryOf(lower), c), Counting(lower, c), hits);
  }

  /** An entry of the loopback breakdown in full. */
  ghost predicate IsEntry(e: LoopbackEntry, lower: Lower, hits: seq<Signal>, c: Category) {
    && e.category == c && e.count == Number(Counting(lower, c), hits)
    && e.percentage * |hits| as real == e.count as real * 100.0
    && (hits == [] ==> e.percentage == 0.0)
  }

  /** The loopback result in full: their number, four entries in alphabetical order, each with the
      number of loopbacks that count as its category and its percentage, and the number of each repo. */
  lemma LoopbacksInFull(lower: Lower, hits: seq<Signal>, m: LoopbackMetrics, repo: string)
    requires LoopbacksFor(lower, hits, m)
    ensures m.total == |hits| && |m.categories| == 4
    ensures IsEntry(m.categories[0], lower, hits, Lint) && IsEntry(m.categories[1], lower, hits, Other)
    ensures IsEntry(m.categories[2], lower, hits, Security) && IsEntry(m.categories[3], lower, hits, Test)
    ensures Get(m.byRepo, repo) == |Filter(Has(RepoOf, repo), hits)| && (repo in m.byRepo <==> Get(m.byRepo, repo) > 0)
  {
    EntryInFull(lower, hits, Lint);
    EntryInFull(lower, hits, Other);
    EntryInFull(lower, hits, Security);
    EntryInFull(lower, hits, Test);
    TallyCounts(RepoOf, hits, repo);
  }

  lemma EntryInFull(lower: Lower, hits: seq<Signal>, c: Category)
    ensures IsEntry(EntryFor(lower, hits, c), lower, hits, c)
  {
    CategoryCounts(lower, hits, c);
    if hits == [] {
      assert Percentage(0, 0) == 0.0;
    } else {
      PercentageTimes(CountIn(lower, hits, c), |hits|);
    }
  }

  lemma PercentageTimes(count: nat, total: nat)
    requires total > 0
    ensures Percentage(count, total) * total as real == count as real * 100.0
  {
    var t := total as real;
    assert count as real / t * t == count as real;
  }
}
