/** Agent runs: the steps of `AgentRunner.run`, any number of runs interleaved over one
    pipeline budget, one enforcer and one audit store, and how the ledgers reconcile. */
module AgentRuns {
  import opened Wrappers
  import opened AuditStore
  import BudgetEnforcer
  import ModelRouter
  import PipelineBudget

  /** What an agent run is started with. `task` is the task packet id, if any. */
  datatype Config = Config(
    id: nat, agentName: string, pipelineStep: string, maxBudgetUsd: real, hasSchema: bool,
    task: Option<string>, repoTier: string, usesPipelineBudget: bool)

  /** What an LLM call used. */
  datatype Usage = Usage(tokensIn: int, tokensOut: int, cacheCreation: int, cacheRead: int)

  /** The choices of everything outside: flags, routing, prompt templates, the LLM, the parser, the clock. */
  datatype Env = Env(
    llmEnabled: bool, provider: Option<ModelRouter.Provider>, promptsBuilt: bool,
    response: Option<Usage>, parsed: bool, now: int)

  /** How a run ends, in the order of the exits. */
  datatype Exit =
    | FlagOff
    | NoProvider
    | OverTaskBudget
    | PipelineExhausted
    | PromptFailed
    | CallFailed
    | SpendRejected(cost: real)
    | ParseFailed
    | Completed

  datatype Phase =
    | Started
    | Flagged
    | Resolved(provider: ModelRouter.Provider)
    | Checked(provider: ModelRouter.Provider)
    | Reserved(provider: ModelRouter.Provider)
    | Calling(provider: ModelRouter.Provider)
    | Responded(provider: ModelRouter.Provider, usage: Usage)
    | Audited(cost: real, tokens: int)
    | Spent
    | Ended(exit: Exit)

  datatype Run = Run(config: Config, phase: Phase)

  /** The stores that all runs share. */
  datatype Shared = Shared(cap: real, used: real, ledger: BudgetEnforcer.Ledger, audits: seq<ModelCallAudit>)

  /** Half the cost of a batch call while batch discounts are switched on. */
  function Discounted(cost: real, batch: bool, batchEnabled: bool): real {
    if batch && batchEnabled then cost * 0.5 else cost
  }

  function CostOf(p: ModelRouter.Provider, u: Usage): real {
    p.EstimateCost(u.tokensIn, u.tokensOut)
  }

  function AuditOf(c: Config, p: ModelRouter.Provider, u: Usage, cost: real, now: int): ModelCallAudit {
    ModelCallAudit(c.id, c.task, c.pipelineStep, c.agentName, p.provider, p.modelId, u.tokensIn, u.tokensOut,
                   cost, 0.0, None, "", u.cacheCreation, u.cacheRead, now)
  }

  /** The enforcer call of a completed LLM call: the budget in force is that of the empty repo id. */
  function SpendCall(c: Config, cost: real, tokens: int): BudgetEnforcer.Call
    requires c.task.Some?
  {
    BudgetEnforcer.RecordSpend(c.task.value, c.pipelineStep, cost, tokens, "")
  }

  function WithinTaskBudget(s: Shared, c: Config): bool {
    c.task.Some? ==> s.ledger.Spend(c.task.value) < s.ledger.Budget(c.repoTier).perTaskMaxSpend
  }

  /** The next step of one run. Reserving is one atomic action on the counter, as the lock
      protocol of the pipeline budget guarantees. */
  function Advance(s: Shared, c: Config, phase: Phase, env: Env): (Shared, Phase) {
    match phase
    case Started => (s, if env.llmEnabled then Flagged else Ended(FlagOff))
    case Flagged => (s, if env.provider.Some? then Resolved(env.provider.value) else Ended(NoProvider))
    case Resolved(p) => (s, if WithinTaskBudget(s, c) then Checked(p) else Ended(OverTaskBudget))
    case Checked(p) =>
      if !c.usesPipelineBudget then (s, Reserved(p))
      else
        var op := PipelineBudget.Consume(c.maxBudgetUsd);
        if PipelineBudget.AtomicResult(s.cap, s.used, op) == PipelineBudget.Refused then (s, Ended(PipelineExhausted))
        else (s.(used := PipelineBudget.AtomicUsed(s.cap, s.used, op)), Reserved(p))
    case Reserved(p) => (s, if env.promptsBuilt then Calling(p) else Ended(PromptFailed))
    case Calling(p) =>
      (s, if env.response.Some? then Responded(p, env.response.value) else Ended(CallFailed))
    case Responded(p, u) =>
      (s.(audits := s.audits + [AuditOf(c, p, u, CostOf(p, u), env.now)]),
       Audited(CostOf(p, u), u.tokensIn + u.tokensOut))
    case Audited(cost, tokens) =>
      if c.task == None then (s, Spent)
      else
        var call := SpendCall(c, cost, tokens);
        (s.(ledger := BudgetEnforcer.Apply(s.ledger, call)),
         if BudgetEnforcer.Accepted(s.ledger, call) then Spent else Ended(SpendRejected(cost)))
    case Spent => (s, if c.hasSchema && !env.parsed then Ended(ParseFailed) else Ended(Completed))
    case Ended(_) => (s, phase)
  }

  // ----- One run to completion ---------------------------------------------------------

  function StepsLeft(phase: Phase): nat {
    match phase
    case Started => 9
    case Flagged => 8
    case Resolved(_) => 7
    case Checked(_) => 6
    case Reserved(_) => 5
    case Calling(_) => 4
    case Responded(_, _) => 3
    case Audited(_, _) => 2
    case Spent => 1
    case Ended(_) => 0
  }

  /** A run with nothing else happening in between. */
  function Alone(s: Shared, c: Config, phase: Phase, env: Env): (r: (Shared, Phase))
    ensures r.1.Ended?
    decreases StepsLeft(phase)
  {
    if phase.Ended? then (s, phase)
    else
      var (s', phase') := Advance(s, c, phase, env);
      Alone(s', c, phase', env)
  }

  class AgentRunner {
    const config: Config
    const budget: PipelineBudget.Budget?
    const enforcer: BudgetEnforcer.InMemoryBudgetEnforcer
    const store: InMemoryModelAuditStore

    constructor (config: Config, budget: PipelineBudget.Budget?, enforcer: BudgetEnforcer.InMemoryBudgetEnforcer,
                 store: InMemoryModelAuditStore)
      requires config.usesPipelineBudget <==> budget != null
      ensures this.config == config && this.budget == budget && this.enforcer == enforcer && this.store == store
    {
      this.config, this.budget, this.enforcer, this.store := config, budget, enforcer, store;
    }

    ghost function SharedState(): Shared
      reads if budget != null then {budget} else {}, enforcer, store
    {
      Shared(if budget != null then budget.maxTotalUsd else 0.0, if budget != null then budget.used else 0.0,
             enforcer.Ledgers(), store.records)
    }

    /** Raises when the task is over its budget; the tier stands in for the repo id. */
    method CheckTaskBudget() returns (ok: bool)
      ensures ok <==> WithinTaskBudget(SharedState(), config)
    {
      ok := true;
      if config.task.Some? {
        ok := enforcer.Check(config.task.value, config.repoTier);
      }
    }

    /** One audit record always; then the spend, which the enforcer may reject. A run makes no
        batch calls. */
    method RecordAudit(p: ModelRouter.Provider, u: Usage, batch: bool, batchEnabled: bool, now: int)
      returns (rejected: bool)
      modifies enforcer, store
      ensures var cost := Discounted(CostOf(p, u), batch, batchEnabled);
        && store.records == old(store.records) + [AuditOf(config, p, u, cost, now)]
        && (if batch && batchEnabled then 2.0 * cost == CostOf(p, u) else cost == CostOf(p, u))
        && Describes(store.records[|old(store.records)|], config, p, u, cost, now)
        && (config.task == None ==> !rejected && enforcer.Ledgers() == old(enforcer.Ledgers()))
        && (config.task.Some? ==>
              var call := SpendCall(config, cost, u.tokensIn + u.tokensOut);
              && rejected == !BudgetEnforcer.Accepted(old(enforcer.Ledgers()), call)
              && enforcer.Ledgers() == BudgetEnforcer.Apply(old(enforcer.Ledgers()), call))
    {
      rejected := false;
      var cost := CostOf(p, u);
      if batch && batchEnabled {
        cost := cost * 0.5;
      }
      store.Record(AuditOf(config, p, u, cost, now));
      if config.task.Some? {
        var r := enforcer.Record(config.task.value, config.pipelineStep, cost, u.tokensIn + u.tokensOut, "");
        rejected := r.Exceeded?;
      }
    }

    /** The method does what the step machine does when the run is alone. */
    method RunAgent(env: Env) returns (exit: Exit)
      requires config.usesPipelineBudget <==> budget != null
      modifies if budget != null then {budget} else {}, enforcer, store
      ensures (SharedState(), Ended(exit)) == Alone(old(SharedState()), config, Started, env)
      ensures ExitLaw(old(SharedState()), config, env, exit)
      ensures EffectLaw(old(SharedState()), config, env, SharedState())
    {
      ghost var s := SharedState();
      ExitOfARun(s, config, env);
      EffectOfARun(s, config, env);
      AloneUnfolds(s, config, Started, env);
      if !env.llmEnabled {
        return FlagOff;
      }
      AloneUnfolds(s, config, Flagged, env);
      if env.provider.None? {
        return NoProvider;
      }
      var provider := env.provider.value;
      AloneUnfolds(s, config, Resolved(provider), env);
      var ok := CheckTaskBudget();
      if !ok {
        return OverTaskBudget;
      }
      AloneUnfolds(s, config, Checked(provider), env);
      if budget != null {
        var granted := budget.Consume(config.maxBudgetUsd);
        if !granted {
          return PipelineExhausted;
        }
      }
      exit := CallAndRecord(provider, env);
    }

    /** The part of a run behind the reservation. */
    method CallAndRecord(provider: ModelRouter.Provider, env: Env) returns (exit: Exit)
      modifies enforcer, store
      ensures (SharedState(), Ended(exit)) == Alone(old(SharedState()), config, Reserved(provider), env)
    {
      ghost var s := SharedState();
      AloneUnfolds(s, config, Reserved(provider), env);
      if !env.promptsBuilt {
        return PromptFailed;
      }
      AloneUnfolds(s, config, Calling(provider), env);
      if env.response.None? {
        return CallFailed;
      }
      var usage := env.response.value;
      AloneUnfolds(s, config, Responded(provider, usage), env);
      ghost var (audited, phase) := Advance(s, config, Responded(provider, usage), env);
      AloneUnfolds(audited, config, phase, env);
      var rejected := RecordAudit(provider, usage, false, false, env.now);
      if rejected {
        return SpendRejected(CostOf(provider, usage));
      }
      AloneUnfolds(SharedState(), config, Spent, env);
      exit := if config.hasSchema && !env.parsed then ParseFailed else Completed;
    }
  }

  lemma AloneUnfolds(s: Shared, c: Config, phase: Phase, env: Env)
    requires !phase.Ended?
    ensures var (s', phase') := Advance(s, c, phase, env);
      && Alone(s, c, phase, env) == Alone(s', c, phase', env)
      && (phase'.Ended? ==> Alone(s, c, phase, env) == (s', phase'))
  {}

  // ----- A check that does not bind ----------------------------------------------------

  /** The run gets past the check and its reservation, and the LLM answers. */
  predicate Answered(s: Shared, c: Config, env: Env) {
    && env.llmEnabled && env.provider.Some? && WithinTaskBudget(s, c)
    && (c.usesPipelineBudget ==> s.used + c.maxBudgetUsd <= s.cap)
    && env.promptsBuilt && env.response.Some?
  }

  function LedgerCall(c: Config, env: Env): BudgetEnforcer.Call
    requires c.task.Some? && env.provider.Some? && env.response.Some?
  {
    var u := env.response.value;
    SpendCall(c, CostOf(env.provider.value, u), u.tokensIn + u.tokensOut)
  }

  /** The enforcer takes the cost and the tokens of a call: under the budget of the empty repo id
      both counters stay within it. A call without a task has nothing to record. */
  predicate SpendFits(l: BudgetEnforcer.Ledger, c: Config, cost: real, tokens: int) {
    c.task.Some? ==>
      && l.Spend(c.task.value) + cost <= l.Budget("").perTaskMaxSpend
      && l.Tokens(c.task.value + ":" + c.pipelineStep) + tokens <= l.Budget("").perStepTokenCap
  }

  lemma AcceptedMeansFits(l: BudgetEnforcer.Ledger, c: Config, cost: real, tokens: int)
    requires c.task.Some?
    ensures BudgetEnforcer.Accepted(l, SpendCall(c, cost, tokens)) <==> SpendFits(l, c, cost, tokens)
  {
    assert BudgetEnforcer.StepKey(c.task.value, c.pipelineStep) == c.task.value + ":" + c.pipelineStep;
  }

  predicate ReservationFits(s: Shared, c: Config) {
    c.usesPipelineBudget ==> s.used + c.maxBudgetUsd <= s.cap
  }

  function WithReservation(s: Shared, c: Config): Shared {
    if c.usesPipelineBudget then s.(used := s.used + c.maxBudgetUsd) else s
  }

  /** Up to the reservation: where a run stops, or what it goes on with. */
  lemma UpToReservation(s: Shared, c: Config, env: Env)
    ensures var outcome := Alone(s, c, Started, env);
      && (!env.llmEnabled ==> outcome == (s, Ended(FlagOff)))
      && (env.llmEnabled && env.provider.None? ==> outcome == (s, Ended(NoProvider)))
      && (env.llmEnabled && env.provider.Some? ==>
            && (!WithinTaskBudget(s, c) ==> outcome == (s, Ended(OverTaskBudget)))
            && (WithinTaskBudget(s, c) && !ReservationFits(s, c) ==> outcome == (s, Ended(PipelineExhausted)))
            && (WithinTaskBudget(s, c) && ReservationFits(s, c) ==>
                  outcome == Alone(WithReservation(s, c), c, Reserved(env.provider.value), env)))
  {
    AloneUnfolds(s, c, Started, env);
    if env.llmEnabled {
      AloneUnfolds(s, c, Flagged, env);
      if env.provider.Some? {
        AloneUnfolds(s, c, Resolved(env.provider.value), env);
        AloneUnfolds(s, c, Checked(env.provider.value), env);
      }
    }
  }

  /** Behind the reservation: where a run stops, or what it goes on with. */
  lemma UpToAnswer(s: Shared, c: Config, p: ModelRouter.Provider, env: Env)
    ensures var outcome := Alone(s, c, Reserved(p), env);
      && (!env.promptsBuilt ==> outcome == (s, Ended(PromptFailed)))
      && (env.promptsBuilt && env.response.None? ==> outcome == (s, Ended(CallFailed)))
      && (env.promptsBuilt && env.response.Some? ==>
            outcome == Alone(s, c, Responded(p, env.response.value), env))
  {
    AloneUnfolds(s, c, Reserved(p), env);
    if env.promptsBuilt {
      AloneUnfolds(s, c, Calling(p), env);
    }
  }

  /** Behind the audit: what the enforcer records, and the exit. */
  lemma AfterAudit(s: Shared, c: Config, cost: real, tokens: int, env: Env)
    ensures Alone(s, c, Audited(cost, tokens), env)
         == (if c.task.Some? then s.(ledger := BudgetEnforcer.Apply(s.ledger, SpendCall(c, cost, tokens))) else s,
             Ended(if !SpendFits(s.ledger, c, cost, tokens) then SpendRejected(cost)
                   else if c.hasSchema && !env.parsed then ParseFailed
                   else Completed))
  {
    AloneUnfolds(s, c, Audited(cost, tokens), env);
    var (spent, next) := Advance(s, c, Audited(cost, tokens), env);
    if c.task.Some? {
      AcceptedMeansFits(s.ledger, c, cost, tokens);
    }
    if next == Spent {
      AloneUnfolds(spent, c, Spent, env);
    }
  }

  /** Behind the answer: what is audited and recorded, and the exit. */
  lemma AfterAnswer(s: Shared, c: Config, p: ModelRouter.Provider, u: Usage, env: Env)
    ensures var (s', phase) := Alone(s, c, Responded(p, u), env);
      var cost, tokens := CostOf(p, u), u.tokensIn + u.tokensOut;
      && s' == s.(audits := s.audits + [AuditOf(c, p, u, cost, env.now)],
                  ledger := if c.task.Some? then BudgetEnforcer.Apply(s.ledger, SpendCall(c, cost, tokens))
                            else s.ledger)
      && phase == Ended(if !SpendFits(s.ledger, c, cost, tokens) then SpendRejected(cost)
                        else if c.hasSchema && !env.parsed then ParseFailed
                        else Completed)
  {
    var cost, tokens := CostOf(p, u), u.tokensIn + u.tokensOut;
    AloneUnfolds(s, c, Responded(p, u), env);
    AfterAudit(s.(audits := s.audits + [AuditOf(c, p, u, cost, env.now)]), c, cost, tokens, env);
  }

  predicate SpendFitsIn(s: Shared, c: Config, env: Env)
    requires Answered(s, c, env)
  {
    var u := env.response.value;
    SpendFits(s.ledger, c, env.provider.value.EstimateCost(u.tokensIn, u.tokensOut), u.tokensIn + u.tokensOut)
  }

  /** How each exit comes about: every guard before it holds, and its own fails. A run is completed
      iff the LLM answered, its spend was taken and, if a schema is set, its answer parsed. */
  ghost predicate ExitLaw(s: Shared, c: Config, env: Env, exit: Exit) {
    var routed := env.llmEnabled && env.provider.Some?;
    var reserves := routed && WithinTaskBudget(s, c) && ReservationFits(s, c);
    var answered := Answered(s, c, env);
    && (exit == FlagOff <==> !env.llmEnabled)
    && (exit == NoProvider <==> env.llmEnabled && env.provider == None)
    && (exit == OverTaskBudget <==>
          routed && c.task.Some? && s.ledger.Spend(c.task.value) >= s.ledger.Budget(c.repoTier).perTaskMaxSpend)
    && (exit == PipelineExhausted <==>
          routed && WithinTaskBudget(s, c) && c.usesPipelineBudget && s.used + c.maxBudgetUsd > s.cap)
    && (exit == PromptFailed <==> reserves && !env.promptsBuilt)
    && (exit == CallFailed <==> reserves && env.promptsBuilt && env.response == None)
    && (exit.SpendRejected? <==> answered && !SpendFitsIn(s, c, env))
    && (exit == ParseFailed <==> answered && SpendFitsIn(s, c, env) && c.hasSchema && !env.parsed)
    && (exit == Completed <==> answered && SpendFitsIn(s, c, env) && (c.hasSchema ==> env.parsed))
  }

  /** The exit law of a run on its own. */
  lemma ExitOfARun(s: Shared, c: Config, env: Env)
    ensures ExitLaw(s, c, env, Alone(s, c, Started, env).1.exit)
  {
    UpToReservation(s, c, env);
    if env.llmEnabled && env.provider.Some? && WithinTaskBudget(s, c) && ReservationFits(s, c) {
      var p := env.provider.value;
      UpToAnswer(WithReservation(s, c), c, p, env);
      if env.promptsBuilt && env.response.Some? {
        AfterAnswer(WithReservation(s, c), c, p, env.response.value, env);
      }
    }
  }

  /** The record of an answered call: who asked, who answered, what it took and what it cost. */
  ghost predicate Describes(a: ModelCallAudit, c: Config, p: ModelRouter.Provider, u: Usage, cost: real, now: int) {
    && a.id == c.id && a.taskId == c.task && a.step == c.pipelineStep && a.role == c.agentName
    && a.provider == p.provider && a.model == p.modelId && a.tokensIn == u.tokensIn && a.tokensOut == u.tokensOut
    && a.cost == cost && a.latencyMs == 0.0 && a.errorClass == None && a.repo == ""
    && a.cacheCreationTokens == u.cacheCreation && a.cacheReadTokens == u.cacheRead && a.createdAt == now
  }

  /** What a run does to the shared stores: it reserves once it is within the task's budget and the
      reservation fits; it is audited iff the LLM answered; and its cost and tokens go to its own
      task and step iff the enforcer takes them. */
  ghost predicate EffectLaw(s: Shared, c: Config, env: Env, s': Shared) {
    var reserves := env.llmEnabled && env.provider.Some? && WithinTaskBudget(s, c) && ReservationFits(s, c);
    && s'.cap == s.cap && s'.ledger.budgets == s.ledger.budgets
    && s'.used == s.used + (if reserves && c.usesPipelineBudget then c.maxBudgetUsd else 0.0)
    && (!Answered(s, c, env) ==> s'.audits == s.audits && s'.ledger == s.ledger)
    && (Answered(s, c, env) ==>
          var p, u := env.provider.value, env.response.value;
          var cost := p.EstimateCost(u.tokensIn, u.tokensOut);
          && |s'.audits| == |s.audits| + 1 && s'.audits[..|s.audits|] == s.audits
          && Describes(s'.audits[|s.audits|], c, p, u, cost, env.now)
          && if c.task == None || !SpendFitsIn(s, c, env) then s'.ledger == s.ledger
             else SpentOn(s.ledger, s'.ledger, c.task.value, c.pipelineStep, cost, u.tokensIn + u.tokensOut))
  }

  /** The cost went to the task and the tokens to its step, and to nothing else. */
  ghost predicate SpentOn(l: BudgetEnforcer.Ledger, l': BudgetEnforcer.Ledger, task: string, step: string,
                          cost: real, tokens: int) {
    && l'.Spend(task) == l.Spend(task) + cost
    && l'.Tokens(task + ":" + step) == l.Tokens(task + ":" + step) + tokens
    && (forall other :: other != task ==> l'.Spend(other) == l.Spend(other))
    && (forall key :: key != task + ":" + step ==> l'.Tokens(key) == l.Tokens(key))
  }

  lemma AcceptedIsSpent(l: BudgetEnforcer.Ledger, c: Config, cost: real, tokens: int)
    requires c.task.Some?
    ensures var l' := BudgetEnforcer.Apply(l, SpendCall(c, cost, tokens));
      && l'.budgets == l.budgets
      && if SpendFits(l, c, cost, tokens) then SpentOn(l, l', c.task.value, c.pipelineStep, cost, tokens) else l' == l
  {
    AcceptedMeansFits(l, c, cost, tokens);
    assert BudgetEnforcer.StepKey(c.task.value, c.pipelineStep) == c.task.value + ":" + c.pipelineStep;
  }

  lemma EffectOfARun(s: Shared, c: Config, env: Env)
    ensures EffectLaw(s, c, env, Alone(s, c, Started, env).0)
  {
    UpToReservation(s, c, env);
    if env.llmEnabled && env.provider.Some? && WithinTaskBudget(s, c) && ReservationFits(s, c) {
      var p := env.provider.value;
      UpToAnswer(WithReservation(s, c), c, p, env);
      if env.promptsBuilt && env.response.Some? {
        var u := env.response.value;
        AfterAnswer(WithReservation(s, c), c, p, u, env);
        if c.task.Some? {
          AcceptedIsSpent(s.ledger, c, CostOf(p, u), u.tokensIn + u.tokensOut);
        }
      }
    }
  }

  /** A run on its own ends with its spend rejected if and only if the LLM answered and the call
      does not fit the budget of the empty repo id: the check looked at another one. */
  lemma WhenSpendIsRejected(s: Shared, c: Config, env: Env)
    ensures Alone(s, c, Started, env).1.exit.SpendRejected?
            <==> Answered(s, c, env) && c.task.Some? && !BudgetEnforcer.Accepted(s.ledger, LedgerCall(c, env))
  {
    ExitOfARun(s, c, env);
    if Answered(s, c, env) && c.task.Some? {
      var u := env.response.value;
      AcceptedMeansFits(s.ledger, c, CostOf(env.provider.value, u), u.tokensIn + u.tokensOut);
    }
  }

  // ----- Interleaved runs --------------------------------------------------------------

  datatype System = System(shared: Shared, runs: seq<Run>)

  /** Some run takes its next step, or an administrator sets a budget. */
  datatype Action = StepRun(i: nat, env: Env) | SetBudget(repo: string, spec: BudgetEnforcer.BudgetSpec)

  function Act(s: System, a: Action): System {
    match a
    case StepRun(i, env) =>
      if i >= |s.runs| then s
      else
        var (shared, phase) := Advance(s.shared, s.runs[i].config, s.runs[i].phase, env);
        System(shared, s.runs[i := s.runs[i].(phase := phase)])
    case SetBudget(repo, spec) =>
      s.(shared := s.shared.(ledger := BudgetEnforcer.Apply(s.shared.ledger, BudgetEnforcer.SetBudget(repo, spec))))
  }

  function Begin(cap: real, configs: seq<Config>): System {
    System(Shared(cap, 0.0, BudgetEnforcer.EMPTY, []),
           seq(|configs|, i requires 0 <= i < |configs| => Run(configs[i], Started)))
  }

  function Execute(cap: real, configs: seq<Config>, schedule: seq<Action>): System {
    if schedule == [] then Begin(cap, configs)
    else Act(Execute(cap, configs, schedule[..|schedule| - 1]), schedule[|schedule| - 1])
  }

  // ----- What a phase says about a run -------------------------------------------------

  /** The run has taken its reservation, whatever became of it afterwards. */
  predicate HasReserved(phase: Phase) {
    match phase
    case Started => false
    case Flagged => false
    case Resolved(_) => false
    case Checked(_) => false
    case Ended(FlagOff) => false
    case Ended(NoProvider) => false
    case Ended(OverTaskBudget) => false
    case Ended(PipelineExhausted) => false
    case _ => true
  }

  /** The run has reached the LLM. */
  predicate HasCalled(phase: Phase) {
    HasReserved(phase) && !phase.Reserved? && phase != Ended(PromptFailed)
  }

  /** The LLM call of the run came back and was audited. */
  predicate HasAudited(phase: Phase) {
    phase.Audited? || phase.Spent?
    || (phase.Ended? && (phase.exit.SpendRejected? || phase.exit == ParseFailed || phase.exit == Completed))
  }

  function Reservation(r: Run): real {
    if HasReserved(r.phase) && r.config.usesPipelineBudget then r.config.maxBudgetUsd else 0.0
  }

  function CalledBudget(r: Run): real {
    if HasCalled(r.phase) && r.config.usesPipelineBudget then r.config.maxBudgetUsd else 0.0
  }

  /** The audited cost of a run of a task that the enforcer does not hold: rejected, or not
      yet passed on. */
  function Unrecorded(task: string): Run -> real {
    (r: Run) =>
      if r.config.task != Some(task) then 0.0
      else if r.phase.Audited? then r.phase.cost
      else if r.phase.Ended? && r.phase.exit.SpendRejected? then r.phase.exit.cost
      else 0.0
  }

  function Sum(f: Run -> real, runs: seq<Run>): real {
    if runs == [] then 0.0 else Sum(f, runs[..|runs| - 1]) + f(runs[|runs| - 1])
  }

  function AuditedCost(audits: seq<ModelCallAudit>, task: string): real {
    if audits == [] then 0.0
    else
      var last := audits[|audits| - 1];
      AuditedCost(audits[..|audits| - 1], task) + (if last.taskId == Some(task) then last.cost else 0.0)
  }

  function AuditCount(audits: seq<ModelCallAudit>, id: nat): nat {
    if audits == [] then 0
    else AuditCount(audits[..|audits| - 1], id) + (if audits[|audits| - 1].id == id then 1 else 0)
  }

  // ----- Every interleaving ------------------------------------------------------------

  lemma {:induction false} SumUpdate(f: Run -> real, runs: seq<Run>, i: nat, r: Run)
    requires i < |runs|
    ensures Sum(f, runs[i := r]) == Sum(f, runs) - f(runs[i]) + f(r)
  {
    var n := |runs| - 1;
    if i == n {
      assert runs[i := r][..n] == runs[..n];
    } else {
      assert runs[i := r][..n] == runs[..n][i := r];
      SumUpdate(f, runs[..n], i, r);
    }
  }

  lemma {:induction false} SumBelow(f: Run -> real, g: Run -> real, runs: seq<Run>)
    requires forall r :: r in runs ==> f(r) <= g(r)
    ensures Sum(f, runs) <= Sum(g, runs)
  {
    if runs != [] {
      assert runs == runs[..|runs| - 1] + [runs[|runs| - 1]];
      SumBelow(f, g, runs[..|runs| - 1]);
    }
  }

  lemma {:induction false} SumZero(f: Run -> real, runs: seq<Run>)
    requires forall r :: r in runs ==> f(r) == 0.0
    ensures Sum(f, runs) == 0.0
  {
    if runs != [] {
      assert runs == runs[..|runs| - 1] + [runs[|runs| - 1]];
      SumZero(f, runs[..|runs| - 1]);
    }
  }

  lemma AppendAudit(audits: seq<ModelCallAudit>, a: ModelCallAudit, task: string, id: nat)
    ensures AuditedCost(audits + [a], task)
         == AuditedCost(audits, task) + (if a.taskId == Some(task) then a.cost else 0.0)
    ensures AuditCount(audits + [a], id) == AuditCount(audits, id) + (if a.id == id then 1 else 0)
  {
    assert (audits + [a])[..|audits|] == audits;
  }

  /** What one step of a run does to the counter. */
  lemma StepReserves(s: Shared, c: Config, phase: Phase, env: Env)
    ensures var (s', phase') := Advance(s, c, phase, env);
      && s'.cap == s.cap
      && s'.used - s.used == Reservation(Run(c, phase')) - Reservation(Run(c, phase))
      && (s'.used != s.used ==> s'.used <= s.cap)
  {}

  /** What one step of a run does to the audit trail and the enforcer. */
  lemma StepBalance(s: Shared, c: Config, phase: Phase, env: Env, task: string, id: nat)
    ensures var (s', phase') := Advance(s, c, phase, env);
      && AuditedCost(s'.audits, task) - s'.ledger.Spend(task) - Unrecorded(task)(Run(c, phase'))
         == AuditedCost(s.audits, task) - s.ledger.Spend(task) - Unrecorded(task)(Run(c, phase))
      && AuditCount(s'.audits, id) - (if c.id == id && HasAudited(phase') then 1 else 0)
         == AuditCount(s.audits, id) - (if c.id == id && HasAudited(phase) then 1 else 0)
  {
    if phase.Responded? {
      var p, u := phase.provider, phase.usage;
      AppendAudit(s.audits, AuditOf(c, p, u, CostOf(p, u), env.now), task, id);
    }
  }

  ghost predicate Reconciled(s: System, task: string) {
    && s.shared.used == Sum(Reservation, s.runs)
    && (s.shared.used <= s.shared.cap || s.shared.used == 0.0)
    && AuditedCost(s.shared.audits, task) == s.shared.ledger.Spend(task) + Sum(Unrecorded(task), s.runs)
  }

  lemma ActReconciles(s: System, a: Action, task: string)
    requires Reconciled(s, task)
    ensures Reconciled(Act(s, a), task) && Act(s, a).shared.cap == s.shared.cap
  {
    if a.StepRun? && a.i < |s.runs| {
      var r := s.runs[a.i];
      StepReserves(s.shared, r.config, r.phase, a.env);
      StepBalance(s.shared, r.config, r.phase, a.env, task, 0);
      var (_, phase) := Advance(s.shared, r.config, r.phase, a.env);
      SumUpdate(Reservation, s.runs, a.i, Run(r.config, phase));
      SumUpdate(Unrecorded(task), s.runs, a.i, Run(r.config, phase));
    }
  }

  lemma {:induction false} ExecuteReconciles(cap: real, configs: seq<Config>, schedule: seq<Action>, task: string)
    ensures Reconciled(Execute(cap, configs, schedule), task) && Execute(cap, configs, schedule).shared.cap == cap
  {
    if schedule == [] {
      SumZero(Reservation, Begin(cap, configs).runs);
      SumZero(Unrecorded(task), Begin(cap, configs).runs);
    } else {
      var before := schedule[..|schedule| - 1];
      ExecuteReconciles(cap, configs, before, task);
      ActReconciles(Execute(cap, configs, before), schedule[|schedule| - 1], task);
    }
  }

  lemma {:induction false} ConfigsStay(cap: real, configs: seq<Config>, schedule: seq<Action>)
    ensures var s := Execute(cap, configs, schedule);
      |s.runs| == |configs| && forall i :: 0 <= i < |configs| ==> s.runs[i].config == configs[i]
  {
    if schedule != [] {
      ConfigsStay(cap, configs, schedule[..|schedule| - 1]);
    }
  }

  /** The pipeline budget over every interleaving of every set of runs: the counter is
      exactly the sum of the reservations of the runs that passed the check, also of those
      that fell back later; with non-negative budgets and cap the runs that reached the LLM
      had at most the cap between them. */
  lemma CallsStayWithinCap(cap: real, configs: seq<Config>, schedule: seq<Action>)
    requires cap >= 0.0
    requires forall c :: c in configs ==> c.maxBudgetUsd >= 0.0
    ensures var s := Execute(cap, configs, schedule);
      && s.shared.used == Sum(Reservation, s.runs)
      && Sum(CalledBudget, s.runs) <= s.shared.used <= cap
  {
    var s := Execute(cap, configs, schedule);
    ExecuteReconciles(cap, configs, schedule, "");
    ConfigsStay(cap, configs, schedule);
    forall r | r in s.runs
      ensures CalledBudget(r) <= Reservation(r)
    {
      var i :| 0 <= i < |s.runs| && s.runs[i] == r;
      assert configs[i] in configs;
    }
    SumBelow(CalledBudget, Reservation, s.runs);
  }

  /** The two ledgers of a task: what was audited is what the enforcer holds plus the cost
      of exactly the calls whose spend was rejected, once no call is between the two. */
  lemma LedgersReconcile(cap: real, configs: seq<Config>, schedule: seq<Action>, task: string)
    ensures var s := Execute(cap, configs, schedule);
      AuditedCost(s.shared.audits, task) == s.shared.ledger.Spend(task) + Sum(Unrecorded(task), s.runs)
    ensures var s := Execute(cap, configs, schedule);
      (forall r :: r in s.runs ==> !r.phase.Audited?) ==>
        AuditedCost(s.shared.audits, task) == s.shared.ledger.Spend(task) + Sum(Rejected(task), s.runs)
  {
    var s := Execute(cap, configs, schedule);
    ExecuteReconciles(cap, configs, schedule, task);
    if forall r :: r in s.runs ==> !r.phase.Audited? {
      SumBelow(Unrecorded(task), Rejected(task), s.runs);
      SumBelow(Rejected(task), Unrecorded(task), s.runs);
    }
  }

  /** The cost of a run whose spend the enforcer rejected. */
  function Rejected(task: string): Run -> real {
    (r: Run) =>
      if r.config.task == Some(task) && r.phase.Ended? && r.phase.exit.SpendRejected? then r.phase.exit.cost else 0.0
  }

  predicate DistinctIds(configs: seq<Config>) {
    forall i, j :: 0 <= i < j < |configs| ==> configs[i].id != configs[j].id
  }

  /** Every completed LLM call leaves exactly one audit record, also when recording its
      spend raised; no other run leaves any. */
  lemma {:induction false} OneAuditPerCall(cap: real, configs: seq<Config>, schedule: seq<Action>, k: nat)
    requires DistinctIds(configs) && k < |configs|
    ensures var s := Execute(cap, configs, schedule);
      |s.runs| == |configs|
      && AuditCount(s.shared.audits, configs[k].id) == if HasAudited(s.runs[k].phase) then 1 else 0
  {
    ConfigsStay(cap, configs, schedule);
    if schedule != [] {
      var before, a := schedule[..|schedule| - 1], schedule[|schedule| - 1];
      var s := Execute(cap, configs, before);
      OneAuditPerCall(cap, configs, before, k);
      ConfigsStay(cap, configs, before);
      if a.StepRun? && a.i < |s.runs| {
        var r := s.runs[a.i];
        StepBalance(s.shared, r.config, r.phase, a.env, "", configs[k].id);
        assert a.i < k ==> configs[a.i].id != configs[k].id;
        assert k < a.i ==> configs[k].id != configs[a.i].id;
      }
    }
  }

  /** A run executed in one go is the machine stepping that run alone. */
  lemma {:induction false} AloneIsInterleaving(s: System, i: nat, env: Env) returns (schedule: seq<Action>)
    requires i < |s.runs|
    ensures forall a :: a in schedule ==> a.StepRun?
    ensures var (shared, phase) := Alone(s.shared, s.runs[i].config, s.runs[i].phase, env);
      Acts(s, schedule) == System(shared, s.runs[i := s.runs[i].(phase := phase)])
    decreases StepsLeft(s.runs[i].phase)
  {
    if s.runs[i].phase.Ended? {
      schedule := [];
      assert s.runs[i := s.runs[i]] == s.runs;
    } else {
      var next := Act(s, StepRun(i, env));
      var rest := AloneIsInterleaving(next, i, env);
      schedule := [StepRun(i, env)] + rest;
      assert schedule[1..] == rest;
    }
  }

  function Acts(s: System, schedule: seq<Action>): System
    decreases |schedule|
  {
    if schedule == [] then s else Acts(Act(s, schedule[0]), schedule[1..])
  }

  // ----- The budget that binds ---------------------------------------------------------

  lemma {:induction false} ExecuteThenActs(cap: real, configs: seq<Config>, before: seq<Action>, after: seq<Action>)
    ensures Execute(cap, configs, before + after) == Acts(Execute(cap, configs, before), after)
    decreases |after|
  {
    if after == [] {
      assert before + after == before;
    } else {
      var longer := before + [after[0]];
      assert before + after == longer + after[1..];
      assert longer[..|before|] == before;
      ExecuteThenActs(cap, configs, longer, after[1..]);
    }
  }

  ghost predicate LeavesEmptyKey(schedule: seq<Action>) {
    forall a :: a in schedule && a.SetBudget? ==> a.repo != ""
  }

  /** As long as nobody sets a budget for the empty repo key, which no route can name, every
      recording is measured against the default, and no task's spend ever exceeds it. */
  lemma {:induction false} DefaultBinds(cap: real, configs: seq<Config>, schedule: seq<Action>, task: string)
    requires LeavesEmptyKey(schedule)
    ensures var l := Execute(cap, configs, schedule).shared.ledger;
      && l.Budget("") == BudgetEnforcer.DEFAULT_BUDGET
      && l.Spend(task) <= BudgetEnforcer.DEFAULT_BUDGET.perTaskMaxSpend
  {
    if schedule != [] {
      var init, a := schedule[..|schedule| - 1], schedule[|schedule| - 1];
      assert schedule == init + [a];
      DefaultBinds(cap, configs, init, task);
      LedgerStep(Execute(cap, configs, init), a, task);
    }
  }

  /** What one action does to the budget of the empty key and to a task's spend. */
  lemma LedgerStep(s: System, a: Action, task: string)
    requires a.SetBudget? ==> a.repo != ""
    requires s.shared.ledger.Spend(task) <= s.shared.ledger.Budget("").perTaskMaxSpend
    ensures Act(s, a).shared.ledger.Budget("") == s.shared.ledger.Budget("")
    ensures Act(s, a).shared.ledger.Spend(task) <= s.shared.ledger.Budget("").perTaskMaxSpend
  {}

  /** The outside lets the run through: switched on, routed, prompted and answered. */
  predicate Willing(env: Env) {
    env.llmEnabled && env.provider.Some? && env.promptsBuilt && env.response.Some?
  }

  function CostIn(env: Env): real
    requires Willing(env)
  {
    CostOf(env.provider.value, env.response.value)
  }

  function TokensIn(env: Env): int
    requires Willing(env)
  {
    env.response.value.tokensIn + env.response.value.tokensOut
  }

  /** Two runs of one task, without a pipeline budget. */
  predicate SameTask(first: Config, second: Config) {
    && first.task.Some? && second.task == first.task
    && !first.usesPipelineBudget && !second.usesPipelineBudget
  }

  /** Nobody has set a budget, and still a run that passed its check is rejected: the task stays
      below the default limit, so the check lets it through, but its next cost does not fit. */
  lemma RejectedUnderDefaults(cap: real, first: Config, second: Config, e: Env, e': Env) returns (schedule: seq<Action>)
    requires SameTask(first, second) && Willing(e) && Willing(e')
    requires CostIn(e) < BudgetEnforcer.DEFAULT_BUDGET.perTaskMaxSpend < CostIn(e) + CostIn(e')
    requires TokensIn(e) <= BudgetEnforcer.DEFAULT_BUDGET.perStepTokenCap
    ensures forall a :: a in schedule ==> a.StepRun?
    ensures var s := Execute(cap, [first, second], schedule);
      && |s.runs| == 2 && s.runs[1] == Run(second, Ended(SpendRejected(CostIn(e'))))
      && s.shared.ledger.Spend(first.task.value) == CostIn(e)
  {
    var configs := [first, second];
    var s0 := Begin(cap, configs);
    var one := AloneIsInterleaving(s0, 0, e);
    FirstAccepted(s0.shared, first, e);
    var s1 := Acts(s0, one);
    var two := AloneIsInterleaving(s1, 1, e');
    SecondRejected(s1.shared, second, e');
    schedule := one + two;
    ExecuteThenActs(cap, configs, [], one);
    assert [] + one == one;
    ExecuteThenActs(cap, configs, one, two);
  }

  lemma FirstAccepted(s: Shared, c: Config, e: Env)
    requires c.task.Some? && !c.usesPipelineBudget && Willing(e) && s.ledger == BudgetEnforcer.EMPTY
    requires CostIn(e) < BudgetEnforcer.DEFAULT_BUDGET.perTaskMaxSpend
    requires TokensIn(e) <= BudgetEnforcer.DEFAULT_BUDGET.perStepTokenCap
    ensures var s' := Alone(s, c, Started, e).0;
      s'.ledger.Spend(c.task.value) == CostIn(e) && s'.ledger.budgets == map[]
  {
    RunThrough(s, c, e);
  }

  lemma SecondRejected(s: Shared, c: Config, e: Env)
    requires c.task.Some? && !c.usesPipelineBudget && Willing(e) && s.ledger.budgets == map[]
    requires s.ledger.Spend(c.task.value) < BudgetEnforcer.DEFAULT_BUDGET.perTaskMaxSpend
    requires s.ledger.Spend(c.task.value) + CostIn(e) > BudgetEnforcer.DEFAULT_BUDGET.perTaskMaxSpend
    ensures var (s', phase) := Alone(s, c, Started, e);
      phase == Ended(SpendRejected(CostIn(e))) && s'.ledger == s.ledger
  {
    RunThrough(s, c, e);
  }

  /** A run that nothing stops before the enforcer ends as the enforcer decides. */
  lemma RunThrough(s: Shared, c: Config, e: Env)
    requires c.task.Some? && !c.usesPipelineBudget && Willing(e) && WithinTaskBudget(s, c)
    ensures var (s', phase) := Alone(s, c, Started, e);
      var call := LedgerCall(c, e);
      && s'.ledger == BudgetEnforcer.Apply(s.ledger, call)
      && (!BudgetEnforcer.Accepted(s.ledger, call) ==> phase == Ended(SpendRejected(CostIn(e))))
  {
    var p, u := e.provider.value, e.response.value;
    AloneUnfolds(s, c, Started, e);
    AloneUnfolds(s, c, Flagged, e);
    AloneUnfolds(s, c, Resolved(p), e);
    AloneUnfolds(s, c, Checked(p), e);
    AloneUnfolds(s, c, Reserved(p), e);
    AloneUnfolds(s, c, Calling(p), e);
    AloneUnfolds(s, c, Responded(p, u), e);
    var (audited, phase) := Advance(s, c, Responded(p, u), e);
    AloneUnfolds(audited, c, phase, e);
    var (spent, next) := Advance(audited, c, phase, e);
    if next == Spent {
      AloneUnfolds(spent, c, Spent, e);
    }
  }

  // ----- Budgets that bind nothing -----------------------------------------------------

  /** The repo keys that some step of some run looks up: its tier, or the empty key. */
  predicate LookedUp(configs: seq<Config>, repo: string) {
    repo == "" || exists i :: 0 <= i < |configs| && configs[i].repoTier == repo
  }

  predicate Matters(configs: seq<Config>, a: Action) {
    a.SetBudget? ==> LookedUp(configs, a.repo)
  }

  /** A schedule without the budgets set for keys that nothing looks up. */
  function Pruned(configs: seq<Config>, schedule: seq<Action>): seq<Action> {
    if schedule == [] then []
    else
      var before, a := Pruned(configs, schedule[..|schedule| - 1]), schedule[|schedule| - 1];
      if Matters(configs, a) then before + [a] else before
  }

  /** The shared stores agree in everything but budgets that nothing looks up. */
  ghost predicate AlikeStores(configs: seq<Config>, s: Shared, t: Shared) {
    && s.cap == t.cap && s.used == t.used && s.audits == t.audits
    && s.ledger.spend == t.ledger.spend && s.ledger.tokens == t.ledger.tokens
    && forall repo :: LookedUp(configs, repo) ==> s.ledger.Budget(repo) == t.ledger.Budget(repo)
  }

  lemma AdvanceAlike(configs: seq<Config>, s: Shared, t: Shared, c: Config, phase: Phase, env: Env)
    requires AlikeStores(configs, s, t) && LookedUp(configs, c.repoTier)
    ensures var ((s', p), (t', q)) := (Advance(s, c, phase, env), Advance(t, c, phase, env));
      p == q && AlikeStores(configs, s', t')
  {
    assert LookedUp(configs, "");
  }

  lemma SetBudgetAlike(configs: seq<Config>, s: System, t: System, a: Action)
    requires a.SetBudget? && AlikeStores(configs, s.shared, t.shared)
    ensures AlikeStores(configs, Act(s, a).shared, Act(t, a).shared)
    ensures !Matters(configs, a) ==> AlikeStores(configs, Act(s, a).shared, t.shared)
  {}

  /** A budget set for a repo that is no run's tier and not the empty key changes nothing: leaving
      all of them out of any schedule leaves the runs, the counter, the audit trail and both
      ledgers as they are. */
  lemma {:induction false} OtherBudgetsBindNothing(cap: real, configs: seq<Config>, schedule: seq<Action>)
    ensures var s, t := Execute(cap, configs, schedule), Execute(cap, configs, Pruned(configs, schedule));
      s.runs == t.runs && AlikeStores(configs, s.shared, t.shared)
  {
    if schedule != [] {
      var init, a := schedule[..|schedule| - 1], schedule[|schedule| - 1];
      OtherBudgetsBindNothing(cap, configs, init);
      ConfigsStay(cap, configs, init);
      var s, t := Execute(cap, configs, init), Execute(cap, configs, Pruned(configs, init));
      PrunedStep(cap, configs, init, a);
      if a.SetBudget? {
        SetBudgetAlike(configs, s, t, a);
      } else if a.i < |s.runs| {
        assert s.runs[a.i].config == configs[a.i];
        AdvanceAlike(configs, s.shared, t.shared, s.runs[a.i].config, s.runs[a.i].phase, a.env);
      }
    }
  }

  lemma PrunedStep(cap: real, configs: seq<Config>, init: seq<Action>, a: Action)
    ensures var t := Execute(cap, configs, Pruned(configs, init));
      Execute(cap, configs, Pruned(configs, init + [a])) == if Matters(configs, a) then Act(t, a) else t
  {
    assert (init + [a])[..|init|] == init;
    var before := Pruned(configs, init);
    assert (before + [a])[..|before|] == before;
  }

  /** Nothing that a run looks up: neither the empty key nor the name of any run's tier. */
  predicate IsOtherKey(configs: seq<Config>, repo: string) {
    repo != "" && forall c :: c in configs ==> c.repoTier != repo
  }

  lemma {:induction false} PrunedDropsOne(configs: seq<Config>, before: seq<Action>, a: Action, after: seq<Action>)
    requires !Matters(configs, a)
    ensures Pruned(configs, before + [a] + after) == Pruned(configs, before + after)
    decreases |after|
  {
    if after == [] {
      assert before + [a] + after == before + [a] && before + after == before;
      assert (before + [a])[..|before|] == before;
    } else {
      var init, last := after[..|after| - 1], after[|after| - 1];
      PrunedDropsOne(configs, before, a, init);
      PrunedLonger(configs, before + [a], init, last);
      PrunedLonger(configs, before, init, last);
      assert init + [last] == after;
    }
  }

  lemma PrunedLonger(configs: seq<Config>, before: seq<Action>, init: seq<Action>, a: Action)
    ensures var pruned := Pruned(configs, before + init);
      Pruned(configs, before + (init + [a])) == if Matters(configs, a) then pruned + [a] else pruned
  {
    assert before + (init + [a]) == before + init + [a];
    PrunedAppend(configs, before + init, a);
  }

  lemma PrunedAppend(configs: seq<Config>, init: seq<Action>, a: Action)
    ensures Pruned(configs, init + [a])
         == if Matters(configs, a) then Pruned(configs, init) + [a] else Pruned(configs, init)
  {
    assert (init + [a])[..|init|] == init;
  }

  /** One such budget, set at any point of any schedule: without it every run, the counter, the audit
      trail and both ledgers are the same. */
  lemma OneOtherBudget(cap: real, configs: seq<Config>, before: seq<Action>, repo: string,
                       spec: BudgetEnforcer.BudgetSpec, after: seq<Action>)
    requires IsOtherKey(configs, repo)
    ensures var s := Execute(cap, configs, before + [SetBudget(repo, spec)] + after);
      var t := Execute(cap, configs, before + after);
      && s.runs == t.runs && s.shared.used == t.shared.used && s.shared.audits == t.shared.audits
      && s.shared.ledger.spend == t.shared.ledger.spend && s.shared.ledger.tokens == t.shared.ledger.tokens
  {
    var a := SetBudget(repo, spec);
    forall i | 0 <= i < |configs|
      ensures configs[i].repoTier != repo
    {
      assert configs[i] in configs;
    }
    PrunedDropsOne(configs, before, a, after);
    OtherBudgetsBindNothing(cap, configs, before + [a] + after);
    OtherBudgetsBindNothing(cap, configs, before + after);
  }

  // ----- How far a run came ------------------------------------------------------------

  /** What a step adds to the history of a run. */
  lemma StepTells(s: Shared, c: Config, phase: Phase, env: Env)
    ensures var next := Advance(s, c, phase, env).1;
      && (HasReserved(next) <==> HasReserved(phase) || next.Reserved?)
      && (HasCalled(next) <==> HasCalled(phase) || next.Calling?)
      && (HasAudited(next) <==> HasAudited(phase) || next.Audited?)
  {}

  /** After some of the actions the run stood in a phase that satisfies `p`. */
  ghost predicate Stood(cap: real, configs: seq<Config>, schedule: seq<Action>, k: nat, p: Phase -> bool) {
    exists j :: 0 <= j <= |schedule| && StoodAt(cap, configs, schedule[..j], k, p)
  }

  ghost predicate StoodAt(cap: real, configs: seq<Config>, schedule: seq<Action>, k: nat, p: Phase -> bool) {
    var s := Execute(cap, configs, schedule);
    k < |s.runs| && p(s.runs[k].phase)
  }

  lemma StoodSnoc(cap: real, configs: seq<Config>, init: seq<Action>, a: Action, k: nat, p: Phase -> bool)
    ensures Stood(cap, configs, init + [a], k, p)
            <==> Stood(cap, configs, init, k, p) || StoodAt(cap, configs, init + [a], k, p)
  {
    var longer := init + [a];
    assert forall j :: 0 <= j <= |init| ==> longer[..j] == init[..j];
    assert longer[..|longer|] == longer;
  }

  /** Over every interleaving the phase of a run tells its past: it has reserved, called or been
      audited iff it once stood right behind its reservation, at the call, or behind its audit. */
  lemma {:induction false} PhaseTellsPast(cap: real, configs: seq<Config>, schedule: seq<Action>, k: nat)
    requires k < |configs|
    ensures var s := Execute(cap, configs, schedule);
      && |s.runs| == |configs|
      && (HasReserved(s.runs[k].phase) <==> Stood(cap, configs, schedule, k, (q: Phase) => q.Reserved?))
      && (HasCalled(s.runs[k].phase) <==> Stood(cap, configs, schedule, k, (q: Phase) => q.Calling?))
      && (HasAudited(s.runs[k].phase) <==> Stood(cap, configs, schedule, k, (q: Phase) => q.Audited?))
  {
    ConfigsStay(cap, configs, schedule);
    if schedule != [] {
      var init, a := schedule[..|schedule| - 1], schedule[|schedule| - 1];
      assert init + [a] == schedule;
      PhaseTellsPast(cap, configs, init, k);
      var s := Execute(cap, configs, init);
      StoodSnoc(cap, configs, init, a, k, (q: Phase) => q.Reserved?);
      StoodSnoc(cap, configs, init, a, k, (q: Phase) => q.Calling?);
      StoodSnoc(cap, configs, init, a, k, (q: Phase) => q.Audited?);
      if a.StepRun? && a.i == k {
        StepTells(s.shared, s.runs[k].config, s.runs[k].phase, a.env);
      } else {
        assert Act(s, a).runs[k] == s.runs[k];
      }
    }
  }

  // ----- Budgets in force --------------------------------------------------------------

  predicate SetsBudgetOf(a: Action, repo: string) {
    a.SetBudget? && a.repo == repo
  }

  lemma ActOnBudget(s: System, a: Action, repo: string)
    ensures Act(s, a).shared.ledger.Budget(repo)
         == if SetsBudgetOf(a, repo) then a.spec else s.shared.ledger.Budget(repo)
  {}

  /** Over every interleaving, the budget that an administrator set last for a repo is the one that the
      runs meet, whatever they do in between. */
  lemma {:induction false} BudgetSetLastCounts(cap: real, configs: seq<Config>, schedule: seq<Action>, repo: string,
                                               i: nat)
    requires i < |schedule| && SetsBudgetOf(schedule[i], repo)
    requires forall j :: i < j < |schedule| ==> !SetsBudgetOf(schedule[j], repo)
    ensures Execute(cap, configs, schedule).shared.ledger.Budget(repo) == schedule[i].spec
    decreases |schedule|
  {
    var n := |schedule| - 1;
    ActOnBudget(Execute(cap, configs, schedule[..n]), schedule[n], repo);
    if i < n {
      assert schedule[..n][i] == schedule[i];
      BudgetSetLastCounts(cap, configs, schedule[..n], repo, i);
    }
  }
}
