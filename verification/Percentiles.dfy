/** Order statistics of the operational targets: percentiles by sorted index, and the lead-time,
    cycle-time and approval metrics computed from recorded events. */
module Percentiles {
  import opened Wrappers
  import opened Sorting
  import opened Tallies
  import opened Clock

  // ----- Percentiles -------------------------------------------------------------------

  predicate AtMost(a: real, b: real) {
    a <= b
  }

  /** The percentages in use, in hundredths. */
  predicate Percentage(p: nat) {
    p == 50 || p == 95 || p == 99
  }

  function Below(v: real): real -> bool {
    x => x < v
  }

  function UpTo(v: real): real -> bool {
    x => x <= v
  }

  /** The position in the sorted list: the percentage of its length, rounded down. */
  function Index(p: nat, n: nat): nat {
    p * n / 100
  }

  function Min(a: int, b: int): int {
    if a < b then a else b
  }

  function Pct(sorted: seq<real>, p: nat): real
    requires sorted != [] && p <= 100
  {
    sorted[Min(Index(p, |sorted|), |sorted| - 1)]
  }

  datatype Triple = Triple(p50: real, p95: real, p99: real)

  function ComputePercentiles(values: seq<real>): Triple {
    if values == [] then Triple(0.0, 0.0, 0.0)
    else
      var sorted := Sort(AtMost, values);
      Triple(Pct(sorted, 50), Pct(sorted, 95), Pct(sorted, 99))
  }

  /** The member of the list that splits it at `p` percent: fewer values than or as many as that
      lie below it, and more than that lie below or at it. */
  predicate Splits(values: seq<real>, p: nat, v: real) {
    v in values && 100 * Number(Below(v), values) <= p * |values| < 100 * Number(UpTo(v), values)
  }

  lemma AtMostIsPreorder()
    ensures TotalPreorder(AtMost)
  {}

  lemma {:induction false} SortedBelow(s: seq<real>, v: real, k: nat)
    requires SortedBy(AtMost, s) && k <= |s|
    requires forall i :: k <= i < |s| ==> v <= s[i]
    ensures Number(Below(v), s) <= k
    decreases |s|
  {
    if s != [] {
      var init, last := s[..|s| - 1], s[|s| - 1];
      assert s == init + [last];
      NumberSnoc(Below(v), init, last);
      if k == |s| {
        SortedBelow(init, v, k - 1);
      } else {
        SortedBelow(init, v, k);
      }
    }
  }

  lemma {:induction false} SortedUpTo(s: seq<real>, v: real, k: nat)
    requires SortedBy(AtMost, s) && k < |s|
    requires forall i :: 0 <= i <= k ==> s[i] <= v
    ensures Number(UpTo(v), s) >= k + 1
    decreases |s|
  {
    var init, last := s[..|s| - 1], s[|s| - 1];
    assert s == init + [last];
    NumberSnoc(UpTo(v), init, last);
    if k < |init| {
      SortedUpTo(init, v, k);
    } else if k > 0 {
      SortedUpTo(init, v, k - 1);
    }
  }

  /** Sorting changes no count. */
  lemma NumberOfSorted(p: real -> bool, values: seq<real>)
    ensures Number(p, Sort(AtMost, values)) == Number(p, values)
  {
    AtMostIsPreorder();
    SortFilter(AtMost, p, values);
  }

  /** For the percentages in use the index stays inside the list: the clamp is never needed. */
  lemma ClampNeverNeeded(p: nat, n: nat)
    requires Percentage(p) && n > 0
    ensures Index(p, n) <= n - 1
    ensures 100 * Index(p, n) <= p * n < 100 * (Index(p, n) + 1)
  {}

  lemma PctSplits(values: seq<real>, p: nat)
    requires Percentage(p) && values != []
    ensures Splits(values, p, Pct(Sort(AtMost, values), p))
  {
    var s, k := Sort(AtMost, values), Index(p, |values|);
    AtMostIsPreorder();
    SortSorts(AtMost, values);
    ClampNeverNeeded(p, |values|);
    var v := s[k];
    assert v == Pct(s, p) && v in values by {
      SortMember(AtMost, values, v);
    }
    assert Number(Below(v), values) <= k by {
      SortedBelow(s, v, k);
      NumberOfSorted(Below(v), values);
    }
    assert Number(UpTo(v), values) >= k + 1 by {
      SortedUpTo(s, v, k);
      NumberOfSorted(UpTo(v), values);
    }
  }

  /** No two values split a list at the same percentage. */
  lemma SplitsUnique(values: seq<real>, p: nat, v: real, w: real)
    requires Splits(values, p, v) && Splits(values, p, w)
    ensures v == w
  {
    if v < w {
      NumberImplies(UpTo(v), Below(w), values);
    } else if w < v {
      NumberImplies(UpTo(w), Below(v), values);
    }
  }

  /** A percentile is the one and only value that splits the list. */
  lemma PercentileIsUniqueSplit(values: seq<real>, v: real)
    requires values != []
    ensures v == ComputePercentiles(values).p50 <==> Splits(values, 50, v)
    ensures v == ComputePercentiles(values).p95 <==> Splits(values, 95, v)
    ensures v == ComputePercentiles(values).p99 <==> Splits(values, 99, v)
  {
    UniqueSplit(values, 50, v);
    UniqueSplit(values, 95, v);
    UniqueSplit(values, 99, v);
  }

  lemma UniqueSplit(values: seq<real>, p: nat, v: real)
    requires values != [] && Percentage(p)
    ensures v == Pct(Sort(AtMost, values), p) <==> Splits(values, p, v)
  {
    PctSplits(values, p);
    if Splits(values, p, v) {
      SplitsUnique(values, p, v, Pct(Sort(AtMost, values), p));
    }
  }

  /** The percentiles do not depend on the order of the values. */
  lemma OrderDoesNotMatter(a: seq<real>, b: seq<real>)
    requires multiset(a) == multiset(b)
    ensures ComputePercentiles(a) == ComputePercentiles(b)
  {
    assert |multiset(a)| == |a| && |multiset(b)| == |b|;
    if a != [] {
      forall v, p | Splits(a, p, v)
        ensures Splits(b, p, v)
      {
        NumberPermuted(Below(v), a, b);
        NumberPermuted(UpTo(v), a, b);
        assert v in multiset(b);
      }
      PercentileIsUniqueSplit(a, ComputePercentiles(a).p50);
      PercentileIsUniqueSplit(a, ComputePercentiles(a).p95);
      PercentileIsUniqueSplit(a, ComputePercentiles(a).p99);
      PercentileIsUniqueSplit(b, ComputePercentiles(a).p50);
      PercentileIsUniqueSplit(b, ComputePercentiles(a).p95);
      PercentileIsUniqueSplit(b, ComputePercentiles(a).p99);
    }
  }

  predicate Rising(t: Triple) {
    t.p50 <= t.p95 <= t.p99
  }

  /** The percentiles rise with the percentage. */
  lemma PercentilesRise(values: seq<real>)
    ensures Rising(ComputePercentiles(values))
  {
    if values != [] {
      AtMostIsPreorder();
      SortSorts(AtMost, values);
      var s, n := Sort(AtMost, values), |values|;
      ClampNeverNeeded(50, n);
      ClampNeverNeeded(95, n);
      ClampNeverNeeded(99, n);
      assert Index(50, n) <= Index(95, n) <= Index(99, n);
      assert Index(50, n) < Index(95, n) ==> AtMost(s[Index(50, n)], s[Index(95, n)]);
      assert Index(95, n) < Index(99, n) ==> AtMost(s[Index(95, n)], s[Index(99, n)]);
    }
  }

  // ----- Recorded events ---------------------------------------------------------------

  /** Times in seconds. */
  datatype TimingEvent = TimingEvent(repoId: string, intakeAt: int, prOpenedAt: Option<int>, mergeReadyAt: Option<int>)

  datatype ApprovalEvent = ApprovalEvent(
    taskpacketId: string, awaitingAt: int, resolvedAt: Option<int>, outcome: string)

  function Hours(from: int, to: int): real {
    (to - from) as real / 3600.0
  }

  /** Hours from intake to the pull request. */
  function LeadTime(e: TimingEvent): Option<real> {
    if e.prOpenedAt.None? then None else Some(Hours(e.intakeAt, e.prOpenedAt.value))
  }

  /** Hours from the pull request to merge-ready. */
  function CycleTime(e: TimingEvent): Option<real> {
    if e.prOpenedAt.None? || e.mergeReadyAt.None? then None else Some(Hours(e.prOpenedAt.value, e.mergeReadyAt.value))
  }

  function Latency(e: ApprovalEvent): Option<real> {
    if e.resolvedAt.None? then None else Some(Hours(e.awaitingAt, e.resolvedAt.value))
  }

  /** An absent filter and an empty one both let every repo through. */
  predicate Counts(filter: Option<string>, cutoff: int, e: TimingEvent) {
    (filter.None? || filter.value == "" || e.repoId == filter.value) && e.intakeAt >= cutoff
  }

  function Counting(filter: Option<string>, cutoff: int): TimingEvent -> bool {
    e => Counts(filter, cutoff, e)
  }

  /** The filter is a prefix of the task packet's id, not a repo. */
  predicate Selects(filter: Option<string>, cutoff: int, e: ApprovalEvent) {
    e.awaitingAt >= cutoff && (filter.None? || filter.value <= e.taskpacketId)
  }

  function Selecting(filter: Option<string>, cutoff: int): ApprovalEvent -> bool {
    e => Selects(filter, cutoff, e)
  }

  /** The measures of those events that have one. */
  function Measured<E>(measure: E -> Option<real>, events: seq<E>): seq<real> {
    if events == [] then []
    else
      var rest, m := Measured(measure, events[..|events| - 1]), measure(events[|events| - 1]);
      if m.Some? then rest + [m.value] else rest
  }

  lemma MeasuredSnoc<E>(measure: E -> Option<real>, events: seq<E>, e: E)
    ensures Measured(measure, events + [e])
         == if measure(e).Some? then Measured(measure, events) + [measure(e).value] else Measured(measure, events)
  {
    assert (events + [e])[..|events|] == events;
  }

  function Collected<E>(measure: E -> Option<real>, keep: E -> bool, events: seq<E>): seq<real> {
    Measured(measure, Filter(keep, events))
  }

  lemma CollectedSnoc<E>(measure: E -> Option<real>, keep: E -> bool, events: seq<E>, i: nat)
    requires i < |events|
    ensures var before := Collected(measure, keep, events[..i]);
            Collected(measure, keep, events[..i + 1])
            == if keep(events[i]) && measure(events[i]).Some? then before + [measure(events[i]).value] else before
  {
    TakeSnoc(events, i);
    FilterSnoc(keep, events[..i], events[i]);
    MeasuredSnoc(measure, Filter(keep, events[..i]), events[i]);
  }

  datatype TimeMetrics = TimeMetrics(times: Triple, sampleCount: nat, insufficientData: bool)

  datatype ApprovalMetrics = ApprovalMetrics(
    approvals: nat, rejections: nat, timeouts: nat, median: real, p95: real, timeoutRate: real, sampleCount: nat,
    insufficientData: bool)

  function Ended(outcome: string): ApprovalEvent -> bool {
    (e: ApprovalEvent) => e.outcome == outcome
  }

  function Rate(part: nat, total: nat): real {
    if total > 0 then part as real / total as real else 0.0
  }

  predicate IsRate(rate: real, part: nat, total: nat) {
    if total == 0 then rate == 0.0 else rate * total as real == part as real
  }

  lemma RateTimes(part: nat, total: nat)
    ensures IsRate(Rate(part, total), part, total)
  {}

  const APPROVED := "approved"
  const REJECTED := "rejected"
  const TIMEOUT := "timeout"

  class OperationalTargetsService {
    const injectedLeadTimes: seq<real>
    const injectedCycleTimes: seq<real>
    var timingEvents: seq<TimingEvent>
    var approvalEvents: seq<ApprovalEvent>

    constructor (leadTimes: seq<real>, cycleTimes: seq<real>)
      ensures injectedLeadTimes == leadTimes && injectedCycleTimes == cycleTimes
      ensures timingEvents == [] && approvalEvents == []
    {
      injectedLeadTimes, injectedCycleTimes := leadTimes, cycleTimes;
      timingEvents, approvalEvents := [], [];
    }

    method RecordTiming(e: TimingEvent)
      modifies this`timingEvents
      ensures timingEvents == old(timingEvents) + [e]
    {
      timingEvents := timingEvents + [e];
    }

    method RecordApprovalEvent(e: ApprovalEvent)
      modifies this`approvalEvents
      ensures approvalEvents == old(approvalEvents) + [e]
    {
      approvalEvents := approvalEvents + [e];
    }

    /** The measures of the events in the window. */
    function InWindow(measure: TimingEvent -> Option<real>, filter: Option<string>, now: int, windowDays: int)
      : seq<real>
      reads this
    {
      Collected(measure, Counting(filter, now - windowDays * DAY), timingEvents)
    }

    /** The measures of the events in the window, or the injected ones when there are none. */
    method GetTimes(measure: TimingEvent -> Option<real>, injected: seq<real>, filter: Option<string>, now: int,
                    windowDays: int)
      returns (values: seq<real>)
      ensures var found := InWindow(measure, filter, now, windowDays);
              values == if found == [] then injected else found
    {
      var cutoff := now - windowDays * DAY;
      ghost var keep := Counting(filter, cutoff);
      values := [];
      for i := 0 to |timingEvents|
        invariant values == Collected(measure, keep, timingEvents[..i])
      {
        var e := timingEvents[i];
        CollectedSnoc(measure, keep, timingEvents, i);
        if !Counts(filter, cutoff, e) {
          continue;
        }
        var hours := measure(e);
        if hours.Some? {
          values := values + [hours.value];
        }
      }
      assert timingEvents[..|timingEvents|] == timingEvents;
      if values == [] {
        values := injected;
      }
    }

    method GetLeadTime(filter: Option<string>, now: int, windowDays: int, minSamples: int) returns (m: TimeMetrics)
      ensures var found := InWindow(LeadTime, filter, now, windowDays);
              Summarizes(if found == [] then injectedLeadTimes else found, minSamples, m)
    {
      var values := GetTimes(LeadTime, injectedLeadTimes, filter, now, windowDays);
      m := TimeMetrics(ComputePercentiles(values), |values|, |values| < minSamples);
      Summary(values);
    }

    method GetCycleTime(filter: Option<string>, now: int, windowDays: int, minSamples: int) returns (m: TimeMetrics)
      ensures var found := InWindow(CycleTime, filter, now, windowDays);
              Summarizes(if found == [] then injectedCycleTimes else found, minSamples, m)
    {
      var values := GetTimes(CycleTime, injectedCycleTimes, filter, now, windowDays);
      m := TimeMetrics(ComputePercentiles(values), |values|, |values| < minSamples);
      Summary(values);
    }

    method GetApprovalBaseline(filter: Option<string>, now: int, windowDays: int, minSamples: int)
      returns (m: ApprovalMetrics)
      ensures ApprovalsFor(Filter(Selecting(filter, now - windowDays * DAY), approvalEvents), minSamples, m)
    {
      var events := Filter(Selecting(filter, now - windowDays * DAY), approvalEvents);
      var total := |events|;
      var approvals := Number(Ended(APPROVED), events);
      var rejections := Number(Ended(REJECTED), events);
      var timeouts := Number(Ended(TIMEOUT), events);
      var latencies := Measured(Latency, events);
      var t := ComputePercentiles(latencies);
      var rate := Rate(timeouts, total);
      RateTimes(timeouts, total);
      m := ApprovalMetrics(approvals, rejections, timeouts, t.p50, t.p95, rate, total, total < minSamples);
      assert t.p50 <= t.p95 && LatenciesFor(latencies, t.p50, t.p95) by {
        Summary(latencies);
      }
    }
  }

  /** What time metrics say about the values they summarise. */
  ghost predicate Summarizes(values: seq<real>, minSamples: int, m: TimeMetrics) {
    && m.sampleCount == |values| && (m.insufficientData <==> |values| < minSamples)
    && Rising(m.times)
    && (if values == [] then m.times == Triple(0.0, 0.0, 0.0)
        else Splits(values, 50, m.times.p50) && Splits(values, 95, m.times.p95) && Splits(values, 99, m.times.p99))
  }

  lemma Summary(values: seq<real>)
    ensures Rising(ComputePercentiles(values))
    ensures var t := ComputePercentiles(values);
            if values == [] then t == Triple(0.0, 0.0, 0.0)
            else Splits(values, 50, t.p50) && Splits(values, 95, t.p95) && Splits(values, 99, t.p99)
  {
    PercentilesRise(values);
    if values != [] {
      PercentileIsUniqueSplit(values, ComputePercentiles(values).p50);
      PercentileIsUniqueSplit(values, ComputePercentiles(values).p95);
      PercentileIsUniqueSplit(values, ComputePercentiles(values).p99);
    }
  }

  ghost predicate ApprovalsFor(events: seq<ApprovalEvent>, minSamples: int, m: ApprovalMetrics) {
    && m.sampleCount == |events| && (m.insufficientData <==> |events| < minSamples)
    && m.approvals == Number(Ended(APPROVED), events) && m.rejections == Number(Ended(REJECTED), events)
    && m.timeouts == Number(Ended(TIMEOUT), events) && IsRate(m.timeoutRate, m.timeouts, |events|)
    && m.median <= m.p95 && LatenciesFor(Measured(Latency, events), m.median, m.p95)
  }

  ghost predicate LatenciesFor(latencies: seq<real>, median: real, p95: real) {
    if latencies == [] then median == 0.0 && p95 == 0.0
    else Splits(latencies, 50, median) && Splits(latencies, 95, p95)
  }

  predicate KnownOutcome(e: ApprovalEvent) {
    e.outcome == APPROVED || e.outcome == REJECTED || e.outcome == TIMEOUT
  }

  /** No event is counted under two outcomes; the three counts make up the samples exactly when
      every event ended in one of the three ways. */
  lemma {:induction false} OutcomesPartition(events: seq<ApprovalEvent>)
    ensures var n := Number(Ended(APPROVED), events) + Number(Ended(REJECTED), events) + Number(Ended(TIMEOUT), events);
            n <= |events| && (n == |events| <==> forall e :: e in events ==> KnownOutcome(e))
  {
    if events != [] {
      var init, last := events[..|events| - 1], events[|events| - 1];
      assert events == init + [last];
      OutcomesPartition(init);
      NumberSnoc(Ended(APPROVED), init, last);
      NumberSnoc(Ended(REJECTED), init, last);
      NumberSnoc(Ended(TIMEOUT), init, last);
      assert |APPROVED| == 8 && |REJECTED| == 8 && |TIMEOUT| == 7 && APPROVED[0] != REJECTED[0];
      assert last in events && forall e :: e in init ==> e in events;
    }
  }

  // ----- What is measured --------------------------------------------------------------

  /** The measures in full, in seconds: from intake to the pull request, and from there to
      merge-ready; where there are both, they add up to the whole way. */
  lemma TimesInFull(e: TimingEvent)
    ensures LeadTime(e).Some? <==> e.prOpenedAt.Some?
    ensures CycleTime(e).Some? <==> e.prOpenedAt.Some? && e.mergeReadyAt.Some?
    ensures LeadTime(e).Some? ==> LeadTime(e).value * 3600.0 + e.intakeAt as real == e.prOpenedAt.value as real
    ensures CycleTime(e).Some? ==>
              && CycleTime(e).value * 3600.0 + e.prOpenedAt.value as real == e.mergeReadyAt.value as real
              && LeadTime(e).value + CycleTime(e).value == Hours(e.intakeAt, e.mergeReadyAt.value)
  {
    if e.prOpenedAt.Some? {
      HoursInSeconds(e.intakeAt, e.prOpenedAt.value);
      if e.mergeReadyAt.Some? {
        HoursInSeconds(e.prOpenedAt.value, e.mergeReadyAt.value);
        HoursInSeconds(e.intakeAt, e.mergeReadyAt.value);
      }
    }
  }

  lemma HoursInSeconds(from: int, to: int)
    ensures Hours(from, to) * 3600.0 == to as real - from as real
  {
    assert (to - from) as real == to as real - from as real;
  }

  /** The latency of an approval, in seconds, from when it was awaited to when it was resolved. */
  lemma LatencyInFull(e: ApprovalEvent)
    ensures Latency(e).Some? <==> e.resolvedAt.Some?
    ensures Latency(e).Some? ==> Latency(e).value * 3600.0 + e.awaitingAt as real == e.resolvedAt.value as real
  {
    if e.resolvedAt.Some? {
      HoursInSeconds(e.awaitingAt, e.resolvedAt.value);
    }
  }

  /** Event `i` is counted and has the measure. */
  predicate IsSample<E>(measure: E -> Option<real>, keep: E -> bool, events: seq<E>, i: nat) {
    i < |events| && keep(events[i]) && measure(events[i]).Some?
  }

  /** The values are those of the events at the places `at`, which are exactly those of the samples. */
  ghost predicate Sampled<E>(measure: E -> Option<real>, keep: E -> bool, events: seq<E>, values: seq<real>,
                             at: seq<nat>)
  {
    && |at| == |values| && (forall k, l :: 0 <= k < l < |at| ==> at[k] < at[l])
    && (forall k :: 0 <= k < |at| ==>
          IsSample(measure, keep, events, at[k]) && values[k] == measure(events[at[k]]).value)
    && (forall i: nat :: IsSample(measure, keep, events, i) ==> i in at)
  }

  lemma SampledSnoc<E>(measure: E -> Option<real>, keep: E -> bool, init: seq<E>, last: E, values: seq<real>,
                       at: seq<nat>)
    requires Sampled(measure, keep, init, values, at)
    ensures if keep(last) && measure(last).Some?
            then Sampled(measure, keep, init + [last], values + [measure(last).value], at + [|init|])
            else Sampled(measure, keep, init + [last], values, at)
  {
    var events := init + [last];
    assert events[|init|] == last;
    forall i: nat | i < |init|
      ensures IsSample(measure, keep, events, i) <==> IsSample(measure, keep, init, i)
    {
      assert events[i] == init[i];
    }
    assert forall k :: 0 <= k < |at| ==> IsSample(measure, keep, init, at[k]);
    if keep(last) && measure(last).Some? {
      assert (at + [|init|])[|at|] == |init|;
      assert forall i :: i in at ==> i in at + [|init|];
    }
  }

  /** The collected values are the measures of all counted events that have one, in order. */
  lemma {:induction false} CollectedInOrder<E>(measure: E -> Option<real>, keep: E -> bool, events: seq<E>)
    returns (at: seq<nat>)
    ensures Sampled(measure, keep, events, Collected(measure, keep, events), at)
  {
    at := [];
    if events != [] {
      var n := |events| - 1;
      var init, last := events[..n], events[n];
      assert init + [last] == events && events[..n + 1] == events;
      at := CollectedInOrder(measure, keep, init);
      SampledSnoc(measure, keep, init, last, Collected(measure, keep, init), at);
      CollectedSnoc(measure, keep, events, n);
      at := if keep(last) && measure(last).Some? then at + [n] else at;
    }
  }

  /** Which events count: those of the repo, or of any when none or the empty one is given, that came
      in at most so many days ago; and which approvals, by the task packets whose ids begin so. */
  lemma WindowInFull(filter: Option<string>, now: int, windowDays: int, e: TimingEvent, a: ApprovalEvent)
    ensures var cutoff := now - windowDays * DAY;
      && (Counting(filter, cutoff)(e) <==>
            && (filter == None || filter == Some("") || filter == Some(e.repoId))
            && now - e.intakeAt <= windowDays * 86400)
      && (Selecting(filter, cutoff)(a) <==>
            && (filter == None || exists rest :: a.taskpacketId == filter.value + rest)
            && now - a.awaitingAt <= windowDays * 86400)
  {
    if filter.Some? {
      assert filter == Some(filter.value);
      if filter.value <= a.taskpacketId {
        assert a.taskpacketId == filter.value + a.taskpacketId[|filter.value|..];
      }
    }
  }

  /** The approval counts in full: how many events ended in each of the three ways. */
  lemma ApprovalsInFull(events: seq<ApprovalEvent>, minSamples: int, m: ApprovalMetrics)
    requires ApprovalsFor(events, minSamples, m)
    ensures m.approvals == |Filter(Ended("approved"), events)| && m.rejections == |Filter(Ended("rejected"), events)|
    ensures m.timeouts == |Filter(Ended("timeout"), events)|
    ensures forall outcome, e :: e in Filter(Ended(outcome), events) <==> e in events && e.outcome == outcome
  {
    forall outcome, e
      ensures e in Filter(Ended(outcome), events) <==> e in events && e.outcome == outcome
    {
      FilterMember(Ended(outcome), events, e);
    }
  }
}
