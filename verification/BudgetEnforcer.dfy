/** The in-memory budget enforcer: per-task spend and per-step token counters that reject
    a call which would overflow, and what they hold after any sequence of calls. */
module BudgetEnforcer {

  datatype BudgetSpec = BudgetSpec(perTaskMaxSpend: real, perStepTokenCap: int, conservativeMode: bool)

  const DEFAULT_BUDGET := BudgetSpec(1.0, 50000, false)

  /** The abstract ledgers. Token counters are keyed by the text `task:step`. */
  datatype Ledger = Ledger(spend: map<string, real>, tokens: map<string, int>, budgets: map<string, BudgetSpec>)
  {
    function Budget(repo: string): BudgetSpec {
      if repo in budgets then budgets[repo] else DEFAULT_BUDGET
    }

    function Spend(task: string): real {
      if task in spend then spend[task] else 0.0
    }

    function Tokens(key: string): int {
      if key in tokens then tokens[key] else 0
    }
  }

  const EMPTY := Ledger(map[], map[], map[])

  datatype Call =
    | SetBudget(repo: string, spec: BudgetSpec)
    | CheckBudget(task: string, repo: string)
    | RecordSpend(task: string, step: string, cost: real, count: int, repo: string)

  function StepKey(task: string, step: string): string {
    task + [':'] + step
  }

  /** Whether a call is let through: only a recorded spend can be refused. */
  predicate Accepted(l: Ledger, c: Call) {
    c.RecordSpend? ==>
      && l.Spend(c.task) + c.cost <= l.Budget(c.repo).perTaskMaxSpend
      && l.Tokens(StepKey(c.task, c.step)) + c.count <= l.Budget(c.repo).perStepTokenCap
  }

  function Apply(l: Ledger, c: Call): Ledger {
    match c
    case SetBudget(repo, spec) => l.(budgets := l.budgets[repo := spec])
    case CheckBudget(_, _) => l
    case RecordSpend(task, step, cost, count, _) =>
      if Accepted(l, c) then
        l.(spend := l.spend[task := l.Spend(task) + cost],
           tokens := l.tokens[StepKey(task, step) := l.Tokens(StepKey(task, step)) + count])
      else l
  }

  datatype SpendResult = Recorded | Exceeded(taskId: string, wouldBe: real, limit: real)

  class InMemoryBudgetEnforcer {
    var taskSpend: map<string, real>
    var taskTokens: map<string, int>
    var budgets: map<string, BudgetSpec>

    ghost function Ledgers(): Ledger
      reads this
    {
      Ledger(taskSpend, taskTokens, budgets)
    }

    constructor ()
      ensures Ledgers() == EMPTY
    {
      taskSpend, taskTokens, budgets := map[], map[], map[];
    }

    method SetBudgetFor(repo: string, spec: BudgetSpec)
      modifies this
      ensures Ledgers() == Apply(old(Ledgers()), SetBudget(repo, spec))
      ensures Ledgers().Budget(repo) == spec
      ensures forall other :: other != repo ==> Ledgers().Budget(other) == old(Ledgers()).Budget(other)
      ensures taskSpend == old(taskSpend) && taskTokens == old(taskTokens)
    {
      budgets := budgets[repo := spec];
    }

    method GetBudget(repo: string) returns (spec: BudgetSpec)
      ensures spec == Ledgers().Budget(repo)
    {
      spec := if repo in budgets then budgets[repo] else DEFAULT_BUDGET;
    }

    method Check(task: string, repo: string) returns (ok: bool)
      ensures ok <==> Ledgers().Spend(task) < Ledgers().Budget(repo).perTaskMaxSpend
    {
      var budget := GetBudget(repo);
      var current := if task in taskSpend then taskSpend[task] else 0.0;
      ok := current < budget.perTaskMaxSpend;
    }

    /** Either both counters grow and stay within the budget in force, or nothing changes. */
    method Record(task: string, step: string, cost: real, count: int, repo: string) returns (r: SpendResult)
      modifies this
      ensures Ledgers() == Apply(old(Ledgers()), RecordSpend(task, step, cost, count, repo))
      ensures r.Recorded? <==>
                && old(Ledgers()).Spend(task) + cost <= old(Ledgers()).Budget(repo).perTaskMaxSpend
                && old(Ledgers()).Tokens(task + ":" + step) + count <= old(Ledgers()).Budget(repo).perStepTokenCap
      ensures r.Recorded? ==>
                && Ledgers().Spend(task) == old(Ledgers()).Spend(task) + cost <= Ledgers().Budget(repo).perTaskMaxSpend
                && Ledgers().Tokens(task + ":" + step) == old(Ledgers()).Tokens(task + ":" + step) + count
                && Ledgers().Tokens(task + ":" + step) <= Ledgers().Budget(repo).perStepTokenCap
      ensures r.Exceeded? ==>
                && Ledgers() == old(Ledgers())
                && r == Exceeded(task, old(Ledgers()).Spend(task) + cost, old(Ledgers()).Budget(repo).perTaskMaxSpend)
    {
      var budget := GetBudget(repo);
      var current := if task in taskSpend then taskSpend[task] else 0.0;
      var newTotal := current + cost;
      if newTotal > budget.perTaskMaxSpend {
        return Exceeded(task, newTotal, budget.perTaskMaxSpend);
      }
      var stepKey := StepKey(task, step);
      var stepTokens := if stepKey in taskTokens then taskTokens[stepKey] else 0;
      if stepTokens + count > budget.perStepTokenCap {
        return Exceeded(task, newTotal, budget.perTaskMaxSpend);
      }
      taskSpend := taskSpend[task := newTotal];
      if stepKey !in taskTokens {
        taskTokens := taskTokens[stepKey := 0];
      }
      taskTokens := taskTokens[stepKey := taskTokens[stepKey] + count];
      r := Recorded;
    }
  }

  // ----- Whole runs --------------------------------------------------------------------

  function Run(calls: seq<Call>): Ledger {
    if calls == [] then EMPTY else Apply(Run(calls[..|calls| - 1]), calls[|calls| - 1])
  }

  predicate SetsBudget(c: Call, repo: string) {
    c.SetBudget? && c.repo == repo
  }

  lemma BudgetStep(l: Ledger, c: Call, repo: string)
    ensures Apply(l, c).Budget(repo) == if SetsBudget(c, repo) then c.spec else l.Budget(repo)
  {}

  /** While no budget has been set for a repo, one dollar and 50,000 tokens are in force. */
  lemma {:induction false} DefaultIsInForce(calls: seq<Call>, repo: string)
    requires forall c :: c in calls ==> !SetsBudget(c, repo)
    ensures Run(calls).Budget(repo) == BudgetSpec(1.0, 50000, false)
  {
    if calls != [] {
      var init, last := calls[..|calls| - 1], calls[|calls| - 1];
      assert last in calls && forall c :: c in init ==> c in calls;
      DefaultIsInForce(init, repo);
      BudgetStep(Run(init), last, repo);
    }
  }

  /** After any sequence of calls the budget that was set last for a repo is in force. */
  lemma {:induction false} LastBudgetIsInForce(calls: seq<Call>, repo: string, i: nat)
    requires i < |calls| && SetsBudget(calls[i], repo)
    requires forall j :: i < j < |calls| ==> !SetsBudget(calls[j], repo)
    ensures Run(calls).Budget(repo) == calls[i].spec
    decreases |calls|
  {
    var n := |calls| - 1;
    BudgetStep(Run(calls[..n]), calls[n], repo);
    if i < n {
      assert calls[..n][i] == calls[i];
      LastBudgetIsInForce(calls[..n], repo, i);
    }
  }

  predicate AcceptedAt(calls: seq<Call>, i: nat)
    requires i < |calls|
  {
    calls[i].RecordSpend? && Accepted(Run(calls[..i]), calls[i])
  }

  /** The total cost of the accepted calls of a task. */
  function AcceptedCost(calls: seq<Call>, task: string): real {
    if calls == [] then 0.0
    else
      var n := |calls| - 1;
      AcceptedCost(calls[..n], task)
      + (if AcceptedAt(calls, n) && calls[n].task == task then calls[n].cost else 0.0)
  }

  /** The total tokens of the accepted calls of a task's step. */
  function AcceptedTokens(calls: seq<Call>, task: string, step: string): int {
    if calls == [] then 0
    else
      var n := |calls| - 1;
      AcceptedTokens(calls[..n], task, step)
      + (if AcceptedAt(calls, n) && calls[n].task == task && calls[n].step == step then calls[n].count else 0)
  }

  function AcceptedTokensOfKey(calls: seq<Call>, key: string): int {
    if calls == [] then 0
    else
      var n := |calls| - 1;
      AcceptedTokensOfKey(calls[..n], key)
      + (if AcceptedAt(calls, n) && StepKey(calls[n].task, calls[n].step) == key then calls[n].count else 0)
  }

  /** After any sequence of calls the ledgers are the sums over the accepted ones. */
  lemma {:induction false} LedgersAreSums(calls: seq<Call>, task: string, key: string)
    ensures Run(calls).Spend(task) == AcceptedCost(calls, task)
    ensures Run(calls).Tokens(key) == AcceptedTokensOfKey(calls, key)
  {
    if calls != [] {
      LedgersAreSums(calls[..|calls| - 1], task, key);
    }
  }

  /** A task that has spent anything is within the limit that was in force for its last
      accepted call. */
  lemma {:induction false} SpendWasAllowed(calls: seq<Call>, task: string) returns (i: nat)
    requires task in Run(calls).spend
    ensures i < |calls| && AcceptedAt(calls, i) && calls[i].task == task
    ensures Run(calls).Spend(task) <= Run(calls[..i]).Budget(calls[i].repo).perTaskMaxSpend
    ensures forall j :: i < j < |calls| && AcceptedAt(calls, j) ==> calls[j].task != task
  {
    var n := |calls| - 1;
    assert calls[..n + 1] == calls;
    if AcceptedAt(calls, n) && calls[n].task == task {
      i := n;
    } else {
      i := SpendWasAllowed(calls[..n], task);
      assert calls[..n][..i] == calls[..i];
      forall j | i < j < |calls| && AcceptedAt(calls, j)
        ensures calls[j].task != task
      {
        if j < n {
          assert calls[..n][..j] == calls[..j] && AcceptedAt(calls[..n], j);
        }
      }
    }
  }

  // ----- Refusals ----------------------------------------------------------------------

  /** A call that the task's money does not allow, whatever its tokens. */
  predicate OverSpends(l: Ledger, c: Call) {
    c.RecordSpend? && l.Spend(c.task) + c.cost > l.Budget(c.repo).perTaskMaxSpend
  }

  /** Between two moments no recorded cost is negative and the repo's budget is not set. */
  predicate Undisturbed(calls: seq<Call>, i: nat, j: nat, repo: string) {
    forall k :: i <= k < j && k < |calls| ==>
      (calls[k].RecordSpend? ==> calls[k].cost >= 0.0) && !(calls[k].SetBudget? && calls[k].repo == repo)
  }

  lemma {:induction false} SpendGrows(calls: seq<Call>, i: nat, j: nat, task: string, repo: string)
    requires i <= j <= |calls| && Undisturbed(calls, i, j, repo)
    ensures Run(calls[..i]).Spend(task) <= Run(calls[..j]).Spend(task)
    ensures Run(calls[..j]).Budget(repo) == Run(calls[..i]).Budget(repo)
  {
    if i < j {
      SpendGrows(calls, i, j - 1, task, repo);
      assert calls[..j][..j - 1] == calls[..j - 1];
    }
  }

  /** With non-negative costs and the budget left alone, a call refused for money stays refused at
      the same or a higher cost, whatever is recorded in between. */
  lemma RefusalIsFinal(calls: seq<Call>, i: nat, j: nat)
    requires i <= j < |calls| && calls[j].RecordSpend? && OverSpends(Run(calls[..i]), calls[i])
    requires calls[j].task == calls[i].task && calls[j].repo == calls[i].repo && calls[j].cost >= calls[i].cost
    requires Undisturbed(calls, i, j, calls[i].repo)
    ensures OverSpends(Run(calls[..j]), calls[j]) && !Accepted(Run(calls[..j]), calls[j])
  {
    SpendGrows(calls, i, j, calls[i].task, calls[i].repo);
  }

  // ----- Token keys --------------------------------------------------------------------

  predicate ColonFree(s: string) {
    ':' !in s
  }

  /** Equal keys come from equal pairs, or the longer task id holds a colon. */
  lemma EqualKeys(task: string, step: string, task': string, step': string)
    requires StepKey(task, step) == StepKey(task', step')
    ensures |task| < |task'| ==> !ColonFree(task')
    ensures |task'| < |task| ==> !ColonFree(task)
    ensures |task| == |task'| ==> task == task' && step == step'
  {
    var key := StepKey(task, step);
    if |task| < |task'| {
      assert key[|task|] == ':' == task'[|task|];
    } else if |task'| < |task| {
      assert key[|task'|] == ':' == task[|task'|];
    } else {
      assert task == key[..|task|] == task';
      assert step == key[|task| + 1..] == step';
    }
  }

  /** With colon-free task ids no two (task, step) pairs share a counter. */
  lemma KeysDiffer(task: string, step: string, task': string, step': string)
    requires ColonFree(task) && ColonFree(task')
    requires StepKey(task, step) == StepKey(task', step')
    ensures task == task' && step == step'
  {
    EqualKeys(task, step, task', step');
  }

  /** So each counter is the sum over exactly the accepted calls of its own pair. */
  lemma {:induction false} CountersAreSeparate(calls: seq<Call>, task: string, step: string)
    requires ColonFree(task)
    requires forall c :: c in calls && c.RecordSpend? ==> ColonFree(c.task)
    ensures Run(calls).Tokens(StepKey(task, step)) == AcceptedTokens(calls, task, step)
  {
    if calls != [] {
      var init, last := calls[..|calls| - 1], calls[|calls| - 1];
      assert calls == init + [last];
      CountersAreSeparate(init, task, step);
      if last.RecordSpend? && StepKey(last.task, last.step) == StepKey(task, step) {
        assert last in calls;
        KeysDiffer(last.task, last.step, task, step);
      }
    }
  }

  /** Without that condition the counters collide exactly when one task id continues the
      other after a colon and the steps make up for it. */
  lemma KeysCollide(task: string, step: string, task': string, step': string)
    ensures StepKey(task, step) == StepKey(task', step') && (task, step) != (task', step')
       <==> (exists mid :: Straddles(task, step, task', step', mid) || Straddles(task', step', task, step, mid))
  {
    if StepKey(task, step) == StepKey(task', step') && (task, step) != (task', step') {
      EqualKeys(task, step, task', step');
      if |task| < |task'| {
        Straddle(task, step, task', step');
      } else {
        Straddle(task', step', task, step);
      }
    }
    forall mid | Straddles(task, step, task', step', mid) || Straddles(task', step', task, step, mid)
      ensures StepKey(task, step) == StepKey(task', step') && (task, step) != (task', step')
    {
      if Straddles(task, step, task', step', mid) {
        StraddledKeys(task, step, task', step', mid);
      } else {
        StraddledKeys(task', step', task, step, mid);
      }
    }
  }

  /** `task'` is `task:mid` and `step` is `mid:step'`. */
  predicate Straddles(task: string, step: string, task': string, step': string, mid: string) {
    task' == task + [':'] + mid && step == mid + [':'] + step'
  }

  lemma StraddledKeys(task: string, step: string, task': string, step': string, mid: string)
    requires Straddles(task, step, task', step', mid)
    ensures StepKey(task, step) == StepKey(task', step') && |task| < |task'|
  {
    assert task + [':'] + (mid + [':'] + step') == task + [':'] + mid + [':'] + step';
  }

  lemma Straddle(task: string, step: string, task': string, step': string)
    requires StepKey(task, step) == StepKey(task', step') && |task| < |task'|
    ensures exists mid :: Straddles(task, step, task', step', mid)
  {
    var key := StepKey(task, step);
    var mid := task'[|task| + 1..];
    assert task == key[..|task|] == task'[..|task|];
    assert task'[|task|] == key[|task|] == ':';
    assert step == key[|task| + 1..] == StepKey(task', step')[|task| + 1..] == mid + [':'] + step';
    assert task' == task + [':'] + mid;
    assert Straddles(task, step, task', step', mid);
  }
}
