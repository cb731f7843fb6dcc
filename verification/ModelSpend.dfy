/** Spend reports over the audit records: grouping, ordering and budget utilisation. */
module ModelSpend {
  import opened Wrappers
  import opened AuditStore
  import opened Sorting
  import opened Distinctness
  import opened Grouping
  import opened Text

  /** Everything a breakdown adds up. */
  datatype Totals = Totals(cost: real, tokensIn: int, tokensOut: int, calls: int, errors: int)

  const ZERO := Totals(0.0, 0, 0, 0, 0)

  function Plus(a: Totals, b: Totals): Totals {
    Totals(a.cost + b.cost, a.tokensIn + b.tokensIn, a.tokensOut + b.tokensOut, a.calls + b.calls, a.errors + b.errors)
  }

  function TotalsOf(r: ModelCallAudit): Totals {
    Totals(r.cost, r.tokensIn, r.tokensOut, 1, if r.errorClass.Some? && r.errorClass.value != "" then 1 else 0)
  }

  function Total(records: seq<ModelCallAudit>): Totals {
    if records == [] then ZERO else Plus(Total(records[..|records| - 1]), TotalsOf(records[|records| - 1]))
  }

  function SumLatency(records: seq<ModelCallAudit>): real {
    if records == [] then 0.0 else SumLatency(records[..|records| - 1]) + records[|records| - 1].latencyMs
  }

  function Timed(group: seq<ModelCallAudit>): seq<ModelCallAudit> {
    Filter((r: ModelCallAudit) => r.latencyMs > 0.0, group)
  }

  function AvgLatency(group: seq<ModelCallAudit>): real {
    if Timed(group) == [] then 0.0 else SumLatency(Timed(group)) / |Timed(group)| as real
  }

  datatype Summary = Summary(key: string, totals: Totals, avgLatencyMs: real)

  type KeyOf = ModelCallAudit -> string

  function Summarize(records: seq<ModelCallAudit>, keyOf: KeyOf, key: string): Summary {
    var group := Group(records, keyOf, key);
    Summary(key, Total(group), AvgLatency(group))
  }

  function SummarizeAll(records: seq<ModelCallAudit>, keyOf: KeyOf, keys: seq<string>): seq<Summary> {
    if keys == [] then []
    else SummarizeAll(records, keyOf, keys[..|keys| - 1]) + [Summarize(records, keyOf, keys[|keys| - 1])]
  }

  predicate CostlierFirst(a: Summary, b: Summary) {
    a.totals.cost >= b.totals.cost
  }

  function Aggregated(records: seq<ModelCallAudit>, keyOf: KeyOf): seq<Summary> {
    Sort(CostlierFirst, SummarizeAll(records, keyOf, Sort(LexLe, Keys(records, keyOf))))
  }

  method Aggregate(records: seq<ModelCallAudit>, keyOf: KeyOf) returns (summaries: seq<Summary>)
    ensures summaries == Aggregated(records, keyOf)
  {
    var groups: map<string, seq<ModelCallAudit>> := map[];
    var order: seq<string> := [];
    for i := 0 to |records|
      invariant Grouped(records[..i], keyOf, groups, order)
    {
      var r := records[i];
      var k := keyOf(r);
      assert records[..i + 1] == records[..i] + [r];
      GroupedSnoc(records[..i], keyOf, groups, order, r);
      if k !in groups {
        order := order + [k];
      }
      groups := Appended(groups, k, r);
    }
    assert records[..|records|] == records;
    summaries := SummarizeGroups(records, keyOf, groups, order);
    summaries := Sort(CostlierFirst, summaries);
  }

  method SummarizeGroups(records: seq<ModelCallAudit>, keyOf: KeyOf, groups: map<string, seq<ModelCallAudit>>,
                         order: seq<string>)
    returns (summaries: seq<Summary>)
    requires Grouped(records, keyOf, groups, order)
    ensures summaries == SummarizeAll(records, keyOf, Sort(LexLe, Keys(records, keyOf)))
  {
    var sorted := Sort(LexLe, order);
    summaries := [];
    for i := 0 to |sorted|
      invariant summaries == SummarizeAll(records, keyOf, sorted[..i])
    {
      TakeSnoc(sorted, i);
      SummarizeAllSnoc(records, keyOf, sorted[..i], sorted[i]);
      SortMember(LexLe, order, sorted[i]);
      var group := groups[sorted[i]];
      summaries := summaries + [Summary(sorted[i], Total(group), AvgLatency(group))];
    }
    assert sorted[..|sorted|] == sorted;
  }

  lemma SummarizeAllSnoc(records: seq<ModelCallAudit>, keyOf: KeyOf, keys: seq<string>, key: string)
    ensures SummarizeAll(records, keyOf, keys + [key])
         == SummarizeAll(records, keyOf, keys) + [Summarize(records, keyOf, key)]
  {
    assert (keys + [key])[..|keys|] == keys;
  }

  // ----- Partition ---------------------------------------------------------------------

  function SumSummaries(s: seq<Summary>): Totals {
    if s == [] then ZERO else Plus(SumSummaries(s[..|s| - 1]), s[|s| - 1].totals)
  }

  /** The totals of the groups of some keys, added up. */
  function SumGroups(records: seq<ModelCallAudit>, keyOf: KeyOf, keys: seq<string>): Totals {
    if keys == [] then ZERO
    else Plus(SumGroups(records, keyOf, keys[..|keys| - 1]), Total(Group(records, keyOf, keys[|keys| - 1])))
  }

  lemma {:induction false} InsertSum(s: seq<Summary>, x: Summary)
    ensures SumSummaries(Insert(CostlierFirst, s, x)) == Plus(SumSummaries(s), x.totals)
  {
    if s == [] {
      assert [x][..0] == [];
    } else {
      var init, last := s[..|s| - 1], s[|s| - 1];
      if CostlierFirst(last, x) {
        assert (s + [x])[..|s|] == s;
      } else {
        InsertSum(init, x);
        assert (Insert(CostlierFirst, init, x) + [last])[..|init| + 1] == Insert(CostlierFirst, init, x);
      }
    }
  }

  lemma {:induction false} SortSum(s: seq<Summary>)
    ensures SumSummaries(Sort(CostlierFirst, s)) == SumSummaries(s)
  {
    if s != [] {
      SortSum(s[..|s| - 1]);
      InsertSum(Sort(CostlierFirst, s[..|s| - 1]), s[|s| - 1]);
    }
  }

  lemma SumSummariesSnoc(s: seq<Summary>, x: Summary)
    ensures SumSummaries(s + [x]) == Plus(SumSummaries(s), x.totals)
  {
    assert (s + [x])[..|s|] == s;
  }

  lemma {:induction false} SummariesSum(records: seq<ModelCallAudit>, keyOf: KeyOf, keys: seq<string>)
    ensures SumSummaries(SummarizeAll(records, keyOf, keys)) == SumGroups(records, keyOf, keys)
  {
    if keys != [] {
      var init, key := keys[..|keys| - 1], keys[|keys| - 1];
      SummariesSum(records, keyOf, init);
      SumSummariesSnoc(SummarizeAll(records, keyOf, init), Summarize(records, keyOf, key));
    }
  }

  lemma TotalSnoc(records: seq<ModelCallAudit>, r: ModelCallAudit)
    ensures Total(records + [r]) == Plus(Total(records), TotalsOf(r))
  {
    assert (records + [r])[..|records|] == records;
  }

  lemma PlusSwaps(a: Totals, b: Totals, d: Totals)
    ensures Plus(Plus(a, d), b) == Plus(Plus(a, b), d) == Plus(a, Plus(b, d))
  {}

  /** One more record adds its totals to the groups exactly once if its key is listed once. */
  lemma {:induction false} GroupsGrow(records: seq<ModelCallAudit>, keyOf: KeyOf, keys: seq<string>, r: ModelCallAudit)
    requires Distinct(keys)
    ensures SumGroups(records + [r], keyOf, keys)
         == if keyOf(r) in keys then Plus(SumGroups(records, keyOf, keys), TotalsOf(r))
            else SumGroups(records, keyOf, keys)
  {
    if keys != [] {
      var init, last := keys[..|keys| - 1], keys[|keys| - 1];
      assert keys == init + [last];
      DistinctSnoc(init, last);
      GroupsGrow(records, keyOf, init, r);
      GroupSnoc(records, keyOf, r, last);
      TotalSnoc(Group(records, keyOf, last), r);
      PlusSwaps(SumGroups(records, keyOf, init), Total(Group(records, keyOf, last)), TotalsOf(r));
    }
  }

  lemma {:induction false} EmptyGroups(keyOf: KeyOf, keys: seq<string>)
    ensures SumGroups([], keyOf, keys) == ZERO
  {
    if keys != [] {
      EmptyGroups(keyOf, keys[..|keys| - 1]);
    }
  }

  /** Over distinct keys that include every record's, the groups add up to the whole. */
  lemma {:induction false} GroupsPartition(records: seq<ModelCallAudit>, keyOf: KeyOf, keys: seq<string>)
    requires Distinct(keys)
    requires forall r :: r in records ==> keyOf(r) in keys
    ensures SumGroups(records, keyOf, keys) == Total(records)
  {
    if records == [] {
      EmptyGroups(keyOf, keys);
    } else {
      var init, last := records[..|records| - 1], records[|records| - 1];
      assert records == init + [last];
      GroupsPartition(init, keyOf, keys);
      GroupsGrow(init, keyOf, keys, last);
      assert last in records;
    }
  }

  lemma LexIsTotal()
    ensures TotalPreorder(LexLe)
  {
    forall x, y
      ensures LexLe(x, y) || LexLe(y, x)
    {
      LexTotal(x, y);
    }
    forall x, y, z | LexLe(x, y) && LexLe(y, z)
      ensures LexLe(x, z)
    {
      LexTransitive(x, y, z);
    }
  }

  lemma SortedKeys(records: seq<ModelCallAudit>, keyOf: KeyOf)
    ensures var keys := Sort(LexLe, Keys(records, keyOf));
      && Distinct(keys) && SortedBy(LexLe, keys)
      && forall r :: r in records ==> keyOf(r) in keys
  {
    var keys := Keys(records, keyOf);
    KeysExact(records, keyOf);
    LexIsTotal();
    SortSorts(LexLe, keys);
    SortPermutes(LexLe, keys);
    DistinctMultiset(keys);
    DistinctMultiset(Sort(LexLe, keys));
    forall r | r in records
      ensures keyOf(r) in Sort(LexLe, keys)
    {
      SortMember(LexLe, keys, keyOf(r));
    }
  }

  /** Whatever the key, a breakdown partitions the records: cost, tokens, calls and errors
      of its groups add up to those of all records. */
  lemma BreakdownPartitions(records: seq<ModelCallAudit>, keyOf: KeyOf)
    ensures SumSummaries(Aggregated(records, keyOf)) == Total(records)
  {
    var keys := Sort(LexLe, Keys(records, keyOf));
    SortedKeys(records, keyOf);
    SortSum(SummarizeAll(records, keyOf, keys));
    SummariesSum(records, keyOf, keys);
    GroupsPartition(records, keyOf, keys);
  }

  predicate KeyBefore(a: Summary, b: Summary) {
    LexLe(a.key, b.key)
  }

  lemma {:induction false} SummarizeAllAt(records: seq<ModelCallAudit>, keyOf: KeyOf, keys: seq<string>)
    ensures |SummarizeAll(records, keyOf, keys)| == |keys|
    ensures forall i :: 0 <= i < |keys| ==> SummarizeAll(records, keyOf, keys)[i] == Summarize(records, keyOf, keys[i])
  {
    if keys != [] {
      var init, key := keys[..|keys| - 1], keys[|keys| - 1];
      assert keys == init + [key];
      SummarizeAllAt(records, keyOf, init);
      SummarizeAllSnoc(records, keyOf, init, key);
    }
  }

  /** Groups come out by falling cost, and by rising key among equal costs. */
  lemma BreakdownOrder(records: seq<ModelCallAudit>, keyOf: KeyOf)
    ensures SortedWithTies(CostlierFirst, KeyBefore, Aggregated(records, keyOf))
  {
    var keys := Sort(LexLe, Keys(records, keyOf));
    var all := SummarizeAll(records, keyOf, keys);
    SortedKeys(records, keyOf);
    SummarizeAllAt(records, keyOf, keys);
    assert TotalPreorder(CostlierFirst);
    SortKeepsTies(CostlierFirst, KeyBefore, all);
  }

  // ----- The report --------------------------------------------------------------------

  const QUERY_LIMIT := 10000

  datatype Report = Report(
    totalCost: real, totalCalls: int, byProvider: seq<Summary>, byStep: seq<Summary>, byModel: seq<Summary>,
    byRepo: seq<Summary>, byDay: seq<Summary>, windowHours: int, cacheCreation: int, cacheRead: int,
    cacheHitRate: real)

  function OrUnknown(s: string): string {
    if s == "" then "unknown" else s
  }

  function SumCacheCreation(records: seq<ModelCallAudit>): int {
    if records == [] then 0
    else SumCacheCreation(records[..|records| - 1]) + records[|records| - 1].cacheCreationTokens
  }

  function SumCacheRead(records: seq<ModelCallAudit>): int {
    if records == [] then 0 else SumCacheRead(records[..|records| - 1]) + records[|records| - 1].cacheReadTokens
  }

  function ProviderKey(r: ModelCallAudit): string {
    r.provider
  }

  function StepKey(r: ModelCallAudit): string {
    OrUnknown(r.step)
  }

  function ModelKey(r: ModelCallAudit): string {
    OrUnknown(r.model)
  }

  function RepoKey(r: ModelCallAudit): string {
    OrUnknown(r.repo)
  }

  function DayKey(dayOf: int -> string): KeyOf {
    (r: ModelCallAudit) => dayOf(r.createdAt)
  }

  /** The newest records inside the window, up to the query limit. */
  function InWindow(all: seq<ModelCallAudit>, cutoff: int): seq<ModelCallAudit> {
    Filter(Since(cutoff), Queried(all, "", "", "", QUERY_LIMIT))
  }

  function HitRate(creation: int, read: int): real {
    if creation + read > 0 then read as real / (creation + read) as real else 0.0
  }

  /** The report on some records: their totals, and a breakdown by each key. */
  ghost predicate ReportFor(records: seq<ModelCallAudit>, windowHours: int, dayOf: int -> string, r: Report) {
    && r.totalCost == Total(records).cost && r.totalCalls == |records| && r.windowHours == windowHours
    && r.byProvider == Aggregated(records, ProviderKey)
    && r.byStep == Aggregated(records, StepKey)
    && r.byModel == Aggregated(records, ModelKey)
    && r.byRepo == Aggregated(records, RepoKey)
    && r.byDay == Aggregated(records, DayKey(dayOf))
    && r.cacheCreation == SumCacheCreation(records) && r.cacheRead == SumCacheRead(records)
    && r.cacheHitRate == HitRate(r.cacheCreation, r.cacheRead)
  }

  lemma EmptyReport(windowHours: int, dayOf: int -> string)
    ensures ReportFor([], windowHours, dayOf, Report(0.0, 0, [], [], [], [], [], windowHours, 0, 0, 0.0))
  {
    NothingAggregated(ProviderKey);
    NothingAggregated(StepKey);
    NothingAggregated(ModelKey);
    NothingAggregated(RepoKey);
    NothingAggregated(DayKey(dayOf));
  }

  /** `dayOf` formats a time stamp as a calendar day; `cutoff` is the start of the window. */
  method GetSpendReport(store: InMemoryModelAuditStore, windowHours: int, cutoff: int, dayOf: int -> string)
    returns (report: Report)
    ensures ReportFor(InWindow(store.records, cutoff), windowHours, dayOf, report)
  {
    var all := store.Query("", "", "", QUERY_LIMIT);
    var records := Filter(Since(cutoff), all);
    if records == [] {
      EmptyReport(windowHours, dayOf);
      return Report(0.0, 0, [], [], [], [], [], windowHours, 0, 0, 0.0);
    }
    report := BuildReport(records, windowHours, dayOf);
  }

  method BuildReport(records: seq<ModelCallAudit>, windowHours: int, dayOf: int -> string) returns (report: Report)
    ensures ReportFor(records, windowHours, dayOf, report)
  {
    var creation, read := SumCacheCreation(records), SumCacheRead(records);
    var byProvider := Aggregate(records, ProviderKey);
    var byStep := Aggregate(records, StepKey);
    var byModel := Aggregate(records, ModelKey);
    var byRepo := Aggregate(records, RepoKey);
    var byDay := Aggregate(records, DayKey(dayOf));
    report := Report(Total(records).cost, |records|, byProvider, byStep, byModel, byRepo, byDay, windowHours,
                     creation, read, HitRate(creation, read));
  }

  lemma NothingAggregated(keyOf: KeyOf)
    ensures Aggregated([], keyOf) == []
  {}

  lemma {:induction false} TotalCalls(records: seq<ModelCallAudit>)
    ensures Total(records).calls == |records|
  {
    if records != [] {
      TotalCalls(records[..|records| - 1]);
    }
  }

  /** Each breakdown of a report adds up to the report's own totals, and cutting at the
      query limit before applying the window is the same as after. */
  lemma ReportReconciles(all: seq<ModelCallAudit>, cutoff: int, keyOf: KeyOf)
    ensures var records := InWindow(all, cutoff);
      && SumSummaries(Aggregated(records, keyOf)) == Total(records)
      && SumSummaries(Aggregated(records, keyOf)).calls == |records|
      && records == TakeFirst(Sort(Newer, Filter(Since(cutoff), all)), 10000)
  {
    var records := InWindow(all, cutoff);
    BreakdownPartitions(records, keyOf);
    TotalCalls(records);
    NoFilters(all, QUERY_LIMIT);
    TruncateThenFilter(all, QUERY_LIMIT, cutoff);
  }

  // ----- Budget utilisation ------------------------------------------------------------

  const OBSERVE := "observe"
  const SUGGEST := "suggest"
  const EXECUTE := "execute"

  /** The tier a record is charged to: its role when that names a tier, else `observe`. */
  function TierOf(r: ModelCallAudit): (tier: string)
    ensures tier == OBSERVE || tier == SUGGEST || tier == EXECUTE
  {
    if r.role == SUGGEST || r.role == EXECUTE then r.role else OBSERVE
  }

  function TaskLabel(r: ModelCallAudit): string {
    if r.taskId.Some? then r.taskId.value else "unknown"
  }

  datatype Utilization = Utilization(tier: string, limit: real, spend: real, activeTasks: nat, pct: real)

  function TaskLabels(records: seq<ModelCallAudit>): set<string> {
    set r | r in records :: TaskLabel(r)
  }

  function UtilizationOf(records: seq<ModelCallAudit>, limitOf: string -> real, tier: string): Utilization {
    var group := Group(records, TierOf, tier);
    var limit, spend := limitOf(tier), Total(group).cost;
    Utilization(tier, limit, spend, |TaskLabels(group)|, if limit > 0.0 then spend / limit * 100.0 else 0.0)
  }

  function SpendIn(tierSpend: map<string, real>, tier: string): real {
    if tier in tierSpend then tierSpend[tier] else 0.0
  }

  function TasksIn(tierTasks: map<string, set<string>>, tier: string): set<string> {
    if tier in tierTasks then tierTasks[tier] else {}
  }

  /** The running sums of a tier after some records. */
  predicate TalliedAt(records: seq<ModelCallAudit>, tierSpend: map<string, real>, tierTasks: map<string, set<string>>,
                      t: string)
  {
    && SpendIn(tierSpend, t) == Total(Group(records, TierOf, t)).cost
    && TasksIn(tierTasks, t) == TaskLabels(Group(records, TierOf, t))
  }

  ghost predicate Tallied(records: seq<ModelCallAudit>, tierSpend: map<string, real>,
                          tierTasks: map<string, set<string>>)
  {
    forall t :: TalliedAt(records, tierSpend, tierTasks, t)
  }

  function ChargeSpend(tierSpend: map<string, real>, r: ModelCallAudit): map<string, real> {
    tierSpend[TierOf(r) := SpendIn(tierSpend, TierOf(r)) + r.cost]
  }

  function ChargeTask(tierTasks: map<string, set<string>>, r: ModelCallAudit): map<string, set<string>> {
    tierTasks[TierOf(r) := TasksIn(tierTasks, TierOf(r)) + {TaskLabel(r)}]
  }

  lemma TalliedStep(records: seq<ModelCallAudit>, tierSpend: map<string, real>, tierTasks: map<string, set<string>>,
                    r: ModelCallAudit)
    requires Tallied(records, tierSpend, tierTasks)
    ensures Tallied(records + [r], ChargeSpend(tierSpend, r), ChargeTask(tierTasks, r))
  {
    var more, spend, tasks := records + [r], ChargeSpend(tierSpend, r), ChargeTask(tierTasks, r);
    forall t: string
      ensures TalliedAt(more, spend, tasks, t)
    {
      assert TalliedAt(records, tierSpend, tierTasks, t);
      TierStep(records, r, t);
    }
  }

  lemma TierStep(records: seq<ModelCallAudit>, r: ModelCallAudit, t: string)
    ensures var group := Group(records, TierOf, t);
      var grown := Group(records + [r], TierOf, t);
      if t == TierOf(r)
      then Total(grown).cost == Total(group).cost + r.cost && TaskLabels(grown) == TaskLabels(group) + {TaskLabel(r)}
      else grown == group
  {
    GroupSnoc(records, TierOf, r, t);
    TierGrows(Group(records, TierOf, t), r);
  }

  lemma TierGrows(group: seq<ModelCallAudit>, r: ModelCallAudit)
    ensures Total(group + [r]).cost == Total(group).cost + r.cost
    ensures TaskLabels(group + [r]) == TaskLabels(group) + {TaskLabel(r)}
  {
    TotalSnoc(group, r);
    assert forall x :: x in group + [r] <==> x in group || x == r;
  }

  method GetBudgetUtilization(store: InMemoryModelAuditStore, cutoff: int, limitOf: string -> real)
    returns (result: seq<Utilization>)
    ensures var records := InWindow(store.records, cutoff);
      result == [UtilizationOf(records, limitOf, OBSERVE), UtilizationOf(records, limitOf, SUGGEST),
                 UtilizationOf(records, limitOf, EXECUTE)]
  {
    var all := store.Query("", "", "", QUERY_LIMIT);
    var records := Filter(Since(cutoff), all);
    var tierSpend: map<string, real> := map[];
    var tierTasks: map<string, set<string>> := map[];
    for i := 0 to |records|
      invariant Tallied(records[..i], tierSpend, tierTasks)
    {
      var r := records[i];
      assert records[..i + 1] == records[..i] + [r];
      TalliedStep(records[..i], tierSpend, tierTasks, r);
      tierSpend := ChargeSpend(tierSpend, r);
      tierTasks := ChargeTask(tierTasks, r);
    }
    assert records[..|records|] == records;
    var o := Utilize(records, tierSpend, tierTasks, limitOf, OBSERVE);
    var s := Utilize(records, tierSpend, tierTasks, limitOf, SUGGEST);
    var e := Utilize(records, tierSpend, tierTasks, limitOf, EXECUTE);
    result := [o, s, e];
  }

  method Utilize(ghost records: seq<ModelCallAudit>, tierSpend: map<string, real>, tierTasks: map<string, set<string>>,
                 limitOf: string -> real, tier: string)
    returns (u: Utilization)
    requires Tallied(records, tierSpend, tierTasks)
    ensures u == UtilizationOf(records, limitOf, tier)
  {
    assert TalliedAt(records, tierSpend, tierTasks, tier);
    var limit, spend, tasks := limitOf(tier), SpendIn(tierSpend, tier), TasksIn(tierTasks, tier);
    u := Utilization(tier, limit, spend, |tasks|, if limit > 0.0 then spend / limit * 100.0 else 0.0);
  }

  /** The three tiers share out the whole window: their spends add up to its total cost. */
  lemma TiersPartition(records: seq<ModelCallAudit>, limitOf: string -> real)
    ensures UtilizationOf(records, limitOf, OBSERVE).spend + UtilizationOf(records, limitOf, SUGGEST).spend
            + UtilizationOf(records, limitOf, EXECUTE).spend == Total(records).cost
  {
    assert OBSERVE[0] == 'o' && SUGGEST[0] == 's' && EXECUTE[0] == 'e';
    ThreeGroups(records, OBSERVE, SUGGEST, EXECUTE);
  }

  lemma ThreeGroups(records: seq<ModelCallAudit>, a: string, b: string, c: string)
    requires a != b && b != c && a != c
    requires forall r :: TierOf(r) == a || TierOf(r) == b || TierOf(r) == c
    ensures Total(Group(records, TierOf, a)).cost + Total(Group(records, TierOf, b)).cost
            + Total(Group(records, TierOf, c)).cost == Total(records).cost
  {
    var one := [] + [a];
    var two := one + [b];
    var three := two + [c];
    GroupsPartition(records, TierOf, three);
    ThreeSum(records, a, b, c, one, two, three);
  }

  lemma PlusThree(a: Totals, b: Totals, c: Totals)
    ensures Plus(Plus(Plus(ZERO, a), b), c).cost == a.cost + b.cost + c.cost
  {}

  lemma NextGroup(records: seq<ModelCallAudit>, keys: seq<string>, k: string, more: seq<string>, sum: Totals)
    requires more == keys + [k] && SumGroups(records, TierOf, keys) == sum
    ensures SumGroups(records, TierOf, more) == Plus(sum, Total(Group(records, TierOf, k)))
  {
    SumGroupsSnoc(records, keys, k);
  }

  lemma ThreeSum(records: seq<ModelCallAudit>, a: string, b: string, c: string, one: seq<string>, two: seq<string>,
                 three: seq<string>)
    requires one == [] + [a] && two == one + [b] && three == two + [c]
    ensures SumGroups(records, TierOf, three).cost
         == Total(Group(records, TierOf, a)).cost + Total(Group(records, TierOf, b)).cost
            + Total(Group(records, TierOf, c)).cost
  {
    var x, y, z := Total(Group(records, TierOf, a)), Total(Group(records, TierOf, b)), Total(Group(records, TierOf, c));
    NextGroup(records, [], a, one, ZERO);
    NextGroup(records, one, b, two, Plus(ZERO, x));
    NextGroup(records, two, c, three, Plus(Plus(ZERO, x), y));
    PlusThree(x, y, z);
  }

  lemma SumGroupsSnoc(records: seq<ModelCallAudit>, keys: seq<string>, k: string)
    ensures SumGroups(records, TierOf, keys + [k])
         == Plus(SumGroups(records, TierOf, keys), Total(Group(records, TierOf, k)))
  {
    assert (keys + [k])[..|keys|] == keys;
  }

  // ----- What the figures are ----------------------------------------------------------

  function CostIn(r: ModelCallAudit): real { r.cost }

  function LatencyIn(r: ModelCallAudit): real { r.latencyMs }

  function TokensInto(r: ModelCallAudit): int { r.tokensIn }

  function TokensOutOf(r: ModelCallAudit): int { r.tokensOut }

  function CreatedIn(r: ModelCallAudit): int { r.cacheCreationTokens }

  function ReadIn(r: ModelCallAudit): int { r.cacheReadTokens }

  function SumReal(f: ModelCallAudit -> real, records: seq<ModelCallAudit>): real {
    if records == [] then 0.0 else SumReal(f, records[..|records| - 1]) + f(records[|records| - 1])
  }

  function SumInt(f: ModelCallAudit -> int, records: seq<ModelCallAudit>): int {
    if records == [] then 0 else SumInt(f, records[..|records| - 1]) + f(records[|records| - 1])
  }

  /** The totals of some records are the sums of their own figures; a call is an error iff its error
      class is a text that is not empty. */
  lemma {:induction false} TotalsInFull(records: seq<ModelCallAudit>)
    ensures var t := Total(records);
      && t.cost == SumReal(CostIn, records)
      && t.tokensIn == SumInt(TokensInto, records)
      && t.tokensOut == SumInt(TokensOutOf, records)
      && t.calls == |records|
      && t.errors == |Filter((r: ModelCallAudit) => r.errorClass != None && r.errorClass != Some(""), records)|
  {
    if records != [] {
      TotalsInFull(records[..|records| - 1]);
      var last := records[|records| - 1];
      assert last.errorClass.Some? ==> (last.errorClass == Some("") <==> last.errorClass.value == "");
    }
  }

  /** The mean latency of a group is that of its calls with a latency above zero. */
  lemma LatencyInFull(group: seq<ModelCallAudit>)
    ensures AvgLatency(group) * |Timed(group)| as real == SumReal(LatencyIn, Timed(group))
    ensures Timed(group) == [] ==> AvgLatency(group) == 0.0
    ensures forall r :: r in Timed(group) <==> r in group && r.latencyMs > 0.0
  {
    LatencySum(Timed(group));
    MeanTimes(group);
    forall r
      ensures r in Timed(group) <==> r in group && r.latencyMs > 0.0
    {
      FilterMember((x: ModelCallAudit) => x.latencyMs > 0.0, group, r);
    }
  }

  lemma MeanTimes(group: seq<ModelCallAudit>)
    ensures Timed(group) == [] ==> AvgLatency(group) == 0.0
    ensures AvgLatency(group) * |Timed(group)| as real == SumLatency(Timed(group))
  {
    if Timed(group) != [] {
      QuotientTimes(SumLatency(Timed(group)), |Timed(group)| as real);
    }
  }

  lemma {:induction false} LatencySum(records: seq<ModelCallAudit>)
    ensures SumLatency(records) == SumReal(LatencyIn, records)
  {
    if records != [] {
      LatencySum(records[..|records| - 1]);
    }
  }

  lemma QuotientTimes(a: real, b: real)
    requires b != 0.0
    ensures a / b * b == a
  {}

  /** The summary of a key: the totals and the mean latency of exactly the records with that key. */
  ghost predicate Summarizes(s: Summary, records: seq<ModelCallAudit>, keyOf: KeyOf) {
    var group := Filter((r: ModelCallAudit) => keyOf(r) == s.key, records);
    group != [] && s.totals == Total(group) && s.avgLatencyMs == AvgLatency(group)
  }

  lemma SummaryOfKey(records: seq<ModelCallAudit>, keyOf: KeyOf, key: string)
    requires key in Sort(LexLe, Keys(records, keyOf))
    ensures Summarizes(Summarize(records, keyOf, key), records, keyOf)
  {
    SortMember(LexLe, Keys(records, keyOf), key);
    KeysExact(records, keyOf);
    GroupIsFilter(records, keyOf, key);
  }

  /** The summaries before they are sorted by cost. */
  function Unsorted(records: seq<ModelCallAudit>, keyOf: KeyOf): seq<Summary> {
    SummarizeAll(records, keyOf, Sort(LexLe, Keys(records, keyOf)))
  }

  lemma SameSummaries(records: seq<ModelCallAudit>, keyOf: KeyOf)
    ensures multiset(Aggregated(records, keyOf)) == multiset(Unsorted(records, keyOf))
  {
    SortPermutes(CostlierFirst, Unsorted(records, keyOf));
  }

  lemma EachSummarizes(records: seq<ModelCallAudit>, keyOf: KeyOf, s: Summary)
    requires s in Aggregated(records, keyOf)
    ensures Summarizes(s, records, keyOf)
  {
    var keys := Sort(LexLe, Keys(records, keyOf));
    SameSummaries(records, keyOf);
    SummarizeAllAt(records, keyOf, keys);
    assert s in multiset(Unsorted(records, keyOf));
    var k :| 0 <= k < |keys| && Unsorted(records, keyOf)[k] == s;
    SummaryOfKey(records, keyOf, keys[k]);
  }

  lemma EachIsSummarized(records: seq<ModelCallAudit>, keyOf: KeyOf, x: ModelCallAudit)
    requires x in records
    ensures HasSummary(Aggregated(records, keyOf), keyOf(x))
  {
    var keys := Sort(LexLe, Keys(records, keyOf));
    SortedKeys(records, keyOf);
    SameSummaries(records, keyOf);
    SummarizeAllAt(records, keyOf, keys);
    var k :| 0 <= k < |keys| && keys[k] == keyOf(x);
    SummaryKept(Unsorted(records, keyOf), Aggregated(records, keyOf), k);
  }

  /** A breakdown has one summary for each key that some record has, and no other. */
  lemma BreakdownInFull(records: seq<ModelCallAudit>, keyOf: KeyOf)
    ensures var r := Aggregated(records, keyOf);
      && (forall s :: s in r ==> Summarizes(s, records, keyOf))
      && (forall i, j :: 0 <= i < j < |r| ==> r[i].key != r[j].key)
      && (forall x :: x in records ==> HasSummary(r, keyOf(x)))
  {
    var r, keys := Aggregated(records, keyOf), Sort(LexLe, Keys(records, keyOf));
    forall s | s in r
      ensures Summarizes(s, records, keyOf)
    {
      EachSummarizes(records, keyOf, s);
    }
    forall x | x in records
      ensures HasSummary(r, keyOf(x))
    {
      EachIsSummarized(records, keyOf, x);
    }
    assert forall i, j :: 0 <= i < j < |r| ==> r[i].key != r[j].key by {
      SortedKeys(records, keyOf);
      SameSummaries(records, keyOf);
      SummarizeAllAt(records, keyOf, keys);
      KeysStayDistinct(records, keyOf, keys, Unsorted(records, keyOf), r);
    }
  }

  predicate HasSummary(summaries: seq<Summary>, key: string) {
    exists i :: 0 <= i < |summaries| && summaries[i].key == key
  }

  lemma SummaryKept(all: seq<Summary>, r: seq<Summary>, k: nat)
    requires multiset(r) == multiset(all) && k < |all|
    ensures HasSummary(r, all[k].key)
  {
    assert all[k] in multiset(r);
    var i :| 0 <= i < |r| && r[i] == all[k];
  }

  lemma GroupIsFilter(records: seq<ModelCallAudit>, keyOf: KeyOf, key: string)
    ensures Group(records, keyOf, key) == Filter((r: ModelCallAudit) => keyOf(r) == key, records)
  {
    FilterCongruent(Has(keyOf, key), (r: ModelCallAudit) => keyOf(r) == key, records);
  }

  lemma KeysStayDistinct(records: seq<ModelCallAudit>, keyOf: KeyOf, keys: seq<string>, all: seq<Summary>,
                         r: seq<Summary>)
    requires Distinct(keys) && |all| == |keys| && multiset(r) == multiset(all)
    requires forall k :: 0 <= k < |keys| ==> all[k] == Summarize(records, keyOf, keys[k])
    ensures forall i, j :: 0 <= i < j < |r| ==> r[i].key != r[j].key
  {
    assert forall k :: 0 <= k < |keys| ==> all[k].key == keys[k];
    DistinctMultiset(all);
    DistinctMultiset(r);
    forall i, j | 0 <= i < j < |r|
      ensures r[i].key != r[j].key
    {
      assert r[i] != r[j] && r[i] in multiset(all) && r[j] in multiset(all);
      var k :| 0 <= k < |all| && all[k] == r[i];
      var l :| 0 <= l < |all| && all[l] == r[j];
    }
  }

  /** The order in full: costs fall, and where two are the same the lower key comes first. */
  lemma BreakdownFalls(records: seq<ModelCallAudit>, keyOf: KeyOf)
    ensures var r := Aggregated(records, keyOf);
      forall i, j :: 0 <= i < j < |r| ==>
        && r[i].totals.cost >= r[j].totals.cost
        && (r[i].totals.cost == r[j].totals.cost ==> LexLe(r[i].key, r[j].key))
  {
    BreakdownOrder(records, keyOf);
    var r := Aggregated(records, keyOf);
    forall i, j | 0 <= i < j < |r|
      ensures r[i].totals.cost >= r[j].totals.cost
      ensures r[i].totals.cost == r[j].totals.cost ==> LexLe(r[i].key, r[j].key)
    {
      assert CostlierFirst(r[i], r[j]) && (CostlierFirst(r[j], r[i]) ==> KeyBefore(r[i], r[j]));
    }
  }

  function Named(s: string): string {
    if s == "" then "unknown" else s
  }

  /** Each breakdown has a summary for the call: under its provider, its step, model and repo, or
      `unknown` for an empty one, and its day. */
  predicate IsListed(report: Report, x: ModelCallAudit, dayOf: int -> string) {
    && HasSummary(report.byProvider, x.provider) && HasSummary(report.byStep, Named(x.step))
    && HasSummary(report.byModel, Named(x.model)) && HasSummary(report.byRepo, Named(x.repo))
    && HasSummary(report.byDay, dayOf(x.createdAt))
  }

  /** Every call of the window is listed. */
  lemma CallIsListed(records: seq<ModelCallAudit>, windowHours: int, dayOf: int -> string, report: Report,
                     x: ModelCallAudit)
    requires ReportFor(records, windowHours, dayOf, report) && x in records
    ensures IsListed(report, x, dayOf)
  {
    EachIsSummarized(records, ProviderKey, x);
    EachIsSummarized(records, StepKey, x);
    EachIsSummarized(records, ModelKey, x);
    EachIsSummarized(records, RepoKey, x);
    EachIsSummarized(records, DayKey(dayOf), x);
  }

  /** The report of a window: what its calls cost, their number, and the share of the cached tokens that
      were read. */
  lemma ReportInFull(records: seq<ModelCallAudit>, windowHours: int, dayOf: int -> string, report: Report)
    requires ReportFor(records, windowHours, dayOf, report)
    ensures report.totalCost == SumReal(CostIn, records) && report.totalCalls == |records|
    ensures report.cacheCreation == SumInt(CreatedIn, records)
    ensures report.cacheRead == SumInt(ReadIn, records)
    ensures IsShare(report.cacheHitRate, report.cacheRead, report.cacheCreation + report.cacheRead)
  {
    TotalsInFull(records);
    CacheSums(records);
    RateIsShare(report.cacheCreation, report.cacheRead);
  }

  /** The rate times the whole is the part; it is zero if there is no whole. */
  predicate IsShare(rate: real, part: int, whole: int) {
    if whole > 0 then rate * whole as real == part as real else rate == 0.0
  }

  lemma RateIsShare(creation: int, read: int)
    ensures IsShare(HitRate(creation, read), read, creation + read)
  {
    if creation + read > 0 {
      QuotientTimes(read as real, (creation + read) as real);
    }
  }

  lemma {:induction false} CacheSums(records: seq<ModelCallAudit>)
    ensures SumCacheCreation(records) == SumInt(CreatedIn, records)
    ensures SumCacheRead(records) == SumInt(ReadIn, records)
  {
    if records != [] {
      CacheSums(records[..|records| - 1]);
    }
  }

  /** The window in full: records of the store from the cutoff on, all of them while the query limit
      is not reached, and no older one instead of a newer one. */
  lemma WindowInFull(all: seq<ModelCallAudit>, cutoff: int)
    ensures var records := InWindow(all, cutoff);
      && |records| <= 10000
      && (forall x :: x in records ==> x in all && x.createdAt >= cutoff)
      && (forall x, y :: x in all && x.createdAt >= cutoff && x !in records && y in records ==>
            |records| == 10000 && y.createdAt >= x.createdAt)
      && (records == [] ==> forall x :: x in all ==> x.createdAt < cutoff)
  {
    var records, kept := InWindow(all, cutoff), Filter(Since(cutoff), all);
    ReportReconciles(all, cutoff, ProviderKey);
    NewerIsTotal();
    SortSorts(Newer, kept);
    SortPermutes(Newer, kept);
    var rest := CutOff(Sort(Newer, kept), 10000);
    assert records + rest == Sort(Newer, kept);
    forall x
      ensures (x in records || x in rest) <==> x in all && x.createdAt >= cutoff
    {
      FilterMember(Since(cutoff), all, x);
      assert x in multiset(records + rest) <==> x in multiset(kept);
      assert x in records + rest <==> x in kept;
    }
    forall x, y | x in all && x.createdAt >= cutoff && x !in records && y in records
      ensures |records| == 10000 && y.createdAt >= x.createdAt
    {
      assert x in rest;
      LaterIsOlder(records, rest, x, y);
    }
    forall x | x in all && records == []
      ensures x.createdAt < cutoff
    {
      assert x in records || x in rest || x.createdAt < cutoff;
    }
  }

  /** Who is charged for a call: its role if that is the name of a tier, else the lowest tier. */
  predicate ChargedTo(r: ModelCallAudit, tier: string) {
    || (tier == "suggest" && r.role == "suggest") || (tier == "execute" && r.role == "execute")
    || (tier == "observe" && r.role != "suggest" && r.role != "execute")
  }

  /** The calls charged to a tier, in their order. */
  function ChargedCalls(records: seq<ModelCallAudit>, tier: string): seq<ModelCallAudit> {
    Filter((r: ModelCallAudit) => ChargedTo(r, tier), records)
  }

  lemma TierMeansCharged(r: ModelCallAudit, tier: string)
    requires tier == OBSERVE || tier == SUGGEST || tier == EXECUTE
    ensures TierOf(r) == tier <==> ChargedTo(r, tier)
  {
    assert OBSERVE[0] == 'o' && SUGGEST[0] == 's' && EXECUTE[0] == 'e';
  }

  lemma GroupIsCharged(records: seq<ModelCallAudit>, tier: string)
    requires tier == OBSERVE || tier == SUGGEST || tier == EXECUTE
    ensures Group(records, TierOf, tier) == ChargedCalls(records, tier)
  {
    forall r | r in records
      ensures Has(TierOf, tier)(r) <==> ChargedTo(r, tier)
    {
      TierMeansCharged(r, tier);
    }
    FilterCongruent(Has(TierOf, tier), (r: ModelCallAudit) => ChargedTo(r, tier), records);
  }

  /** A tier's line in full: the cost of the calls charged to it, and their different tasks, with one
      for all calls without a task. */
  lemma UtilizationInFull(records: seq<ModelCallAudit>, limitOf: string -> real, tier: string)
    requires tier == "observe" || tier == "suggest" || tier == "execute"
    ensures var u := UtilizationOf(records, limitOf, tier);
      && u.tier == tier && u.limit == limitOf(tier)
      && u.spend == SumReal(CostIn, ChargedCalls(records, tier))
      && u.activeTasks
         == |set r | r in ChargedCalls(records, tier) :: if r.taskId == None then "unknown" else r.taskId.value|
  {
    GroupIsCharged(records, tier);
    TotalsInFull(ChargedCalls(records, tier));
    SameLabels(ChargedCalls(records, tier));
  }

  /** The spend as a percentage of the tier's limit, if it has one. */
  lemma ShareOfLimit(records: seq<ModelCallAudit>, limitOf: string -> real, tier: string)
    ensures var u := UtilizationOf(records, limitOf, tier);
      if u.limit > 0.0 then u.pct * u.limit == u.spend * 100.0 else u.pct == 0.0
  {
    var u := UtilizationOf(records, limitOf, tier);
    if u.limit > 0.0 {
      Percentage(u.spend, u.limit);
    }
  }

  lemma SameLabels(records: seq<ModelCallAudit>)
    ensures TaskLabels(records) == set r | r in records :: if r.taskId == None then "unknown" else r.taskId.value
  {}

  lemma Percentage(spend: real, limit: real)
    requires limit != 0.0
    ensures spend / limit * 100.0 * limit == spend * 100.0
  {
    assert spend / limit * limit == spend;
  }
}
