/** The in-memory store of model-call audit records and its query. */
module AuditStore {
  import opened Wrappers
  import opened Sorting

  datatype ModelCallAudit = ModelCallAudit(
    id: nat, taskId: Option<string>, step: string, role: string, provider: string, model: string,
    tokensIn: int, tokensOut: int, cost: real, latencyMs: real, errorClass: Option<string>, repo: string,
    cacheCreationTokens: int, cacheReadTokens: int, createdAt: int)

  /** `str(record.task_id)`. */
  function TaskText(r: ModelCallAudit): string {
    if r.taskId.Some? then r.taskId.value else "None"
  }

  /** Python's `items[:limit]`. */
  function TakeFirst<T>(items: seq<T>, limit: int): seq<T> {
    if limit >= |items| then items
    else if limit >= 0 then items[..limit]
    else if -limit >= |items| then []
    else items[..|items| + limit]
  }

  /** A slice is a prefix: as long as the limit says, or shorter than the whole by what a negative limit
      says, as far as there are items. */
  lemma SliceInFull<T>(items: seq<T>, limit: int)
    ensures TakeFirst(items, limit) <= items
    ensures 0 <= limit <= |items| ==> |TakeFirst(items, limit)| == limit
    ensures -|items| <= limit < 0 ==> |TakeFirst(items, limit)| == |items| + limit
    ensures limit > |items| ==> TakeFirst(items, limit) == items
    ensures limit < -|items| ==> TakeFirst(items, limit) == []
  {}

  predicate Newer(a: ModelCallAudit, b: ModelCallAudit) {
    a.createdAt >= b.createdAt
  }

  function ForTask(task: string): ModelCallAudit -> bool {
    (r: ModelCallAudit) => task == "" || TaskText(r) == task
  }

  function ForStep(step: string): ModelCallAudit -> bool {
    (r: ModelCallAudit) => step == "" || r.step == step
  }

  function ForProvider(provider: string): ModelCallAudit -> bool {
    (r: ModelCallAudit) => provider == "" || r.provider == provider
  }

  /** The filters of a query together; an empty text filters nothing. */
  function Wanted(task: string, step: string, provider: string): ModelCallAudit -> bool {
    (r: ModelCallAudit) => ForTask(task)(r) && ForStep(step)(r) && ForProvider(provider)(r)
  }

  function Queried(records: seq<ModelCallAudit>, task: string, step: string, provider: string, limit: int)
    : seq<ModelCallAudit>
  {
    TakeFirst(Sort(Newer, Filter(Wanted(task, step, provider), records)), limit)
  }

  class InMemoryModelAuditStore {
    var records: seq<ModelCallAudit>

    constructor ()
      ensures records == []
    {
      records := [];
    }

    method Record(audit: ModelCallAudit)
      modifies this
      ensures records == old(records) + [audit]
    {
      records := records + [audit];
    }

    /** Absent arguments are passed as the empty text. */
    method Query(task: string, step: string, provider: string, limit: int) returns (results: seq<ModelCallAudit>)
      ensures results == Queried(records, task, step, provider, limit)
    {
      results := records;
      if task != "" {
        results := Filter(ForTask(task), results);
      } else {
        FilterAll(ForTask(task), results);
      }
      if step != "" {
        results := Filter(ForStep(step), results);
      } else {
        FilterAll(ForStep(step), results);
      }
      if provider != "" {
        results := Filter(ForProvider(provider), results);
      } else {
        FilterAll(ForProvider(provider), results);
      }
      FiltersCompose(records, task, step, provider);
      results := TakeFirst(Sort(Newer, results), limit);
    }
  }

  lemma FiltersCompose(records: seq<ModelCallAudit>, task: string, step: string, provider: string)
    ensures Filter(ForProvider(provider), Filter(ForStep(step), Filter(ForTask(task), records)))
         == Filter(Wanted(task, step, provider), records)
  {
    var two := (r: ModelCallAudit) => ForTask(task)(r) && ForStep(step)(r);
    FilterTwice(ForTask(task), ForStep(step), two, records);
    FilterTwice(two, ForProvider(provider), Wanted(task, step, provider), records);
  }

  lemma NoFilters(records: seq<ModelCallAudit>, limit: int)
    ensures Queried(records, "", "", "", limit) == TakeFirst(Sort(Newer, records), limit)
  {
    forall r | r in records
      ensures Wanted("", "", "")(r)
    {
      assert ForTask("")(r) && ForStep("")(r) && ForProvider("")(r);
    }
    FilterAll(Wanted("", "", ""), records);
  }

  lemma NewerIsTotal()
    ensures TotalPreorder(Newer)
  {}

  /** A query returns the newest matching records, newest first: together with what it
      leaves out it is all of them, and nothing left out is newer than anything returned. */
  lemma QueryIsNewest(records: seq<ModelCallAudit>, task: string, step: string, provider: string, limit: nat)
    returns (rest: seq<ModelCallAudit>)
    ensures var r := Queried(records, task, step, provider, limit);
      && |r| <= limit && (|r| < limit ==> rest == [])
      && multiset(r + rest) == multiset(Filter(Wanted(task, step, provider), records))
      && SortedBy(Newer, r + rest)
  {
    var kept := Filter(Wanted(task, step, provider), records);
    NewerIsTotal();
    SortSorts(Newer, kept);
    SortPermutes(Newer, kept);
    rest := CutOff(Sort(Newer, kept), limit);
  }

  /** Which records a query looks for: an empty text looks for all, `None` for those without a task. */
  lemma LookedFor(r: ModelCallAudit, task: string, step: string, provider: string)
    ensures Wanted(task, step, provider)(r) <==>
            && (task == "" || r.taskId == Some(task) || (r.taskId == None && task == "None"))
            && (step == "" || r.step == step)
            && (provider == "" || r.provider == provider)
  {
    assert ForTask(task)(r) <==> task == "" || TaskText(r) == task;
    assert ForStep(step)(r) <==> step == "" || r.step == step;
    assert ForProvider(provider)(r) <==> provider == "" || r.provider == provider;
    if r.taskId.Some? {
      assert r.taskId == Some(r.taskId.value);
    }
  }

  /** A query in full: at most as many as the limit, all of them wanted, by falling creation time; and
      a wanted record that is missing is older than all of them or as old, and the limit is reached. */
  lemma QueryInFull(records: seq<ModelCallAudit>, task: string, step: string, provider: string, limit: nat)
    ensures var r := Queried(records, task, step, provider, limit);
      && |r| <= limit
      && (forall k, l :: 0 <= k < l < |r| ==> r[k].createdAt >= r[l].createdAt)
      && (forall x :: x in r ==> x in records && Wanted(task, step, provider)(x))
      && (forall x, y :: x in records && Wanted(task, step, provider)(x) && x !in r && y in r ==>
            |r| == limit && y.createdAt >= x.createdAt)
      && (r == [] && limit > 0 ==> forall x :: x in records ==> !Wanted(task, step, provider)(x))
  {
    var kept := Filter(Wanted(task, step, provider), records);
    var r := Queried(records, task, step, provider, limit);
    var rest := QueryIsNewest(records, task, step, provider, limit);
    forall x
      ensures (x in r || x in rest) <==> x in records && Wanted(task, step, provider)(x)
    {
      FilterMember(Wanted(task, step, provider), records, x);
      assert x in multiset(r + rest) <==> x in multiset(kept);
      assert x in r + rest <==> x in kept;
    }
    forall k, l | 0 <= k < l < |r|
      ensures r[k].createdAt >= r[l].createdAt
    {
      assert Newer((r + rest)[k], (r + rest)[l]);
    }
    forall x, y | x in records && Wanted(task, step, provider)(x) && x !in r && y in r
      ensures |r| == limit && y.createdAt >= x.createdAt
    {
      assert x in rest;
      LaterIsOlder(r, rest, x, y);
    }
    if r == [] && limit > 0 {
      assert rest == [];
    }
  }

  lemma LaterIsOlder(r: seq<ModelCallAudit>, rest: seq<ModelCallAudit>, x: ModelCallAudit, y: ModelCallAudit)
    requires SortedBy(Newer, r + rest) && x in rest && y in r
    ensures y.createdAt >= x.createdAt
  {
    var k :| 0 <= k < |r| && r[k] == y;
    var l :| 0 <= l < |rest| && rest[l] == x;
    assert (r + rest)[k] == y && (r + rest)[|r| + l] == x;
  }

  lemma CutOff<T>(s: seq<T>, limit: nat) returns (rest: seq<T>)
    ensures var r := TakeFirst(s, limit);
            r + rest == s && |r| <= limit && (|r| < limit ==> rest == [])
  {
    rest := s[|TakeFirst(s, limit)|..];
  }

  /** The records at or after a cutoff. */
  function Since(cutoff: int): ModelCallAudit -> bool {
    (r: ModelCallAudit) => r.createdAt >= cutoff
  }

  /** Cutting a newest-first list to a length commutes with the time window. */
  lemma TruncateThenFilter(records: seq<ModelCallAudit>, limit: nat, cutoff: int)
    ensures Filter(Since(cutoff), TakeFirst(Sort(Newer, records), limit))
         == TakeFirst(Sort(Newer, Filter(Since(cutoff), records)), limit)
  {
    NewerIsTotal();
    SortSorts(Newer, records);
    SortFilter(Newer, Since(cutoff), records);
    TruncateSorted(Sort(Newer, records), limit, cutoff);
  }

  lemma TruncateSorted(sorted: seq<ModelCallAudit>, limit: nat, cutoff: int)
    requires SortedBy(Newer, sorted)
    ensures Filter(Since(cutoff), TakeFirst(sorted, limit)) == TakeFirst(Filter(Since(cutoff), sorted), limit)
  {
    if limit < |sorted| {
      var head, tail := sorted[..limit], sorted[limit..];
      assert sorted == head + tail;
      FilterConcat(Since(cutoff), head, tail);
      if |Filter(Since(cutoff), head)| < limit {
        NothingLater(head, tail, cutoff);
      }
      TakeWhole(Filter(Since(cutoff), head), Filter(Since(cutoff), tail), limit);
    }
  }

  lemma TakeWhole<T>(a: seq<T>, b: seq<T>, limit: nat)
    requires |a| <= limit && (|a| < limit ==> b == [])
    ensures TakeFirst(a + b, limit) == a
  {}

  lemma NothingLater(head: seq<ModelCallAudit>, tail: seq<ModelCallAudit>, cutoff: int)
    requires SortedBy(Newer, head + tail)
    requires |Filter(Since(cutoff), head)| < |head|
    ensures Filter(Since(cutoff), tail) == []
  {
    if forall x :: x in head ==> Since(cutoff)(x) {
      FilterAll(Since(cutoff), head);
    }
    var x :| x in head && !Since(cutoff)(x);
    var i :| 0 <= i < |head| && head[i] == x;
    forall y | y in tail
      ensures !Since(cutoff)(y)
    {
      var j :| 0 <= j < |tail| && tail[j] == y;
      assert (head + tail)[i] == x && (head + tail)[|head| + j] == y;
    }
    FilterNone(Since(cutoff), tail);
  }
}
