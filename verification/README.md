# Verified core of TheStudio

This project models the parts of TheStudio whose correctness takes an argument, and proves what
they promise. `dafny verify dfyconfig.toml` verifies all of it.

| file | what it models |
|---|---|
| `Wrappers.dfy`, `Clock.dfy`, `Text.dfy`, `Sorting.dfy`, `Distinctness.dfy`, `Grouping.dfy`, `Tallies.dfy` | optional values; Python's `split`, `join`, `strip`, `in`; stable `sorted` and filtering; dictionaries of groups and of counters |
| `ModelRouter.dfy` | class resolution, provider selection and the escalation chain, as the class `Router` |
| `BudgetEnforcer.dfy` | the in-memory enforcer's spend and token ledgers |
| `PipelineBudget.dfy` | the locked cost counter: the class, and a state machine of any number of threads that take, check, add and release as separate steps |
| `AgentRuns.dfy` | `AgentRunner.run` as a step machine, any number of runs interleaved over one pipeline budget, one enforcer and one audit store |
| `AuditStore.dfy`, `ModelSpend.dfy` | the audit store's query and the spend report computed from it |
| `LineWrap.dfy`, `AgentFiles.dfy` | the agent-file printer, body reader, generator and drift check over a file store |
| `ComplianceChecker.dfy`, `TierLifecycle.dfy` | the compliance checks and the tier lifecycle they gate, with its append-only log |
| `Assembler.dfy`, `PlanAssembly.dfy` | conflict detection, resolution by intent, plan steps, escalation, refinement, QA hand-off and provenance |
| `PlaneRegistry.dfy`, `Scorecard.dfy` | the execution-plane registry and the scorecard cache that reads it |
| `Metrics.dfy`, `Percentiles.dfy` | loopback and single-pass tallies; percentiles by sorted index and the targets built on them |

Conventions. Objects that the source updates in place are classes with the same fields, proved
against a specification function on their abstract state. Money, rates and durations are `real`,
time stamps `int`. Dictionaries whose order matters keep their insertion order beside the map.
Exceptions are result values or recorded exits. The answers of everything outside (LLM, GitHub,
health probes, clocks, lower-casing, date formatting, fresh ids) are parameters, so each theorem
holds for every answer.

What the proofs found in the code:

* The drift check has an exact condition. A body that is read back survives regeneration iff no
  `---` occurs between the front-matter delimiters; and because files are read with universal
  newlines, a carriage return in the front matter, or in a fixed body before its trailing
  whitespace, is reported as drift for ever (`AgentFiles.WriteThenCheck`).
* A repository registered through the endpoint stores empty repository information that nothing
  updates, so in memory it can never reach EXECUTE (`TierLifecycle.BareRepoNeverExecutes`).
* Three compliance checks have no exception handler and read what GitHub answered: the ruleset,
  reviewer and branch-protection checks raise, instead of failing, on exactly the answers that
  `ComplianceChecker.CheckCompliance` names. A null review setting or a null approval count raises
  without CODEOWNERS (`ComplianceChecker.NullRaises`), a review setting that is no object and not
  empty even with it (`ComplianceChecker.NonObjectRaises`).
* Token counters of two (task, step) pairs collide exactly when one task id continues the other
  after a colon (`BudgetEnforcer.KeysCollide`).
* The agent checks a task's budget under its repo tier as repo key, but records the spend under
  the empty repo key. A run that passed the check therefore ends with its spend rejected exactly
  when the call does not fit the budget of the empty key (`AgentRuns.WhenSpendIsRejected`), and
  that is the default: the one route that sets budgets cannot name the empty key, so no task ever
  spends more than the default limit (`AgentRuns.DefaultBinds`). It happens without any budget
  being set, to a task below the limit whose next cost does not fit
  (`AgentRuns.RejectedUnderDefaults`); the spend then stays where it is, the check goes on letting
  the task through to the LLM, and as long as no cost is negative every call at the same or a
  higher cost is refused again
  (`BudgetEnforcer.RefusalIsFinal`). The rejection escapes from the run as an exception, after the
  audit record has been written.
* A budget that an administrator sets for a repo changes nothing in any run, unless the repo id
  is the name of some run's tier (`AgentRuns.OtherBudgetsBindNothing`).
* The doc string of `resolve_class` ranks overlay over tier over role overrides; the code takes
  the highest class among all of them, and so does the model.
* "Used plus remaining is the cap" fails for a negative cap from which nothing was granted, and
  for nothing else (`PipelineBudget.RemainingReconciles`).
* A loopback whose step is present but no text raises out of the loopback metrics
  (`Metrics.GetLoopbacks`).
* A repo whose id is the empty text cannot be filtered for (`Metrics.FilteredTotal`). The
  single-pass workflows seen under a repo filter are the repo's own exactly when no workflow with
  a signal of the repo also has one of another (`Metrics.FilteredWorkflows`), and their numbers agree with the
  unfiltered tallies at every time exactly when each of them starts in the repo
  (`Metrics.FilteredTotals`, and `Metrics.FilteredFigures` for the successes).
* The doc string of the scorecard service speaks of 7 checks; the code evaluates 8, and so does
  the model.

## Model

| member | source | states |
|---|---|---|
| ModelRouter.ByIdKeeps | src/admin/model_gateway.py:286 | registration keeps exactly the latest provider of every id and nothing else |
| ModelRouter.FirstSeenOrder | src/admin/model_gateway.py:286 | the ids keep the order in which they were first given, also when a later provider replaces an earlier one |
| ModelRouter.LastRuleCounts | src/admin/model_gateway.py:287 | the rule of a step is the last one given for it |
| ModelRouter.Router.ResolveClass | src/admin/model_gateway.py:313-350 | returns the class that `Resolves` describes: the highest of the (possibly downgraded) base class and the applicable overrides, BALANCED for an unknown step |
| ModelRouter.ResolvedInFull | src/admin/model_gateway.py:313-350 | the resolved class reaches the step's own class (FAST for the two cheap steps under cost routing, BALANCED without a rule) and every override of role, tier and overlays, and is one of them |
| ModelRouter.ResolvesUnique | src/admin/model_gateway.py:313-350 | the resolved class is determined by the set of overlays: order and repetition do not matter |
| ModelRouter.ResolvesMonotone | src/admin/model_gateway.py:333-350 | adding overlays never lowers the class |
| ModelRouter.CostRoutingLowers | src/admin/model_gateway.py:328-350 | cost routing can only lower the class, never below an applicable override, and lowers it exactly when the base class falls and no override reaches it |
| ModelRouter.Router.SetProviderEnabled | src/admin/model_gateway.py:306-311 | changes the flag of that provider only; an unknown id changes nothing and is reported |
| ModelRouter.Router.SelectModel | src/admin/model_gateway.py:352-370 | picks the best enabled provider of exactly the target class, or raises |
| ModelRouter.Router.SelectWithFallback | src/admin/model_gateway.py:372-410 | the loop over rising classes returns what the selection specification says, with its chain |
| ModelRouter.FindIsFirstOfClass | src/admin/model_gateway.py:412-426 | the provider found for a class is the first of that class in the queue by class, priority and registration |
| ModelRouter.SelectionIsFirst | src/admin/model_gateway.py:372-410 | a selection is the head of that queue, and raises exactly when the queue is empty |
| ModelRouter.ChainIsExact | src/admin/model_gateway.py:386-410 | the chain names exactly the exhausted classes from the target up, then the class escalated to |
| ModelRouter.ChainInFull | src/admin/model_gateway.py:386-410 | the chain's entries one by one, with the class names: nothing at the target class, else an `exhausted` entry for each class below the one reached, and one `escalated` entry |
| ModelRouter.SelectionInFull | src/admin/model_gateway.py:372-426 | a selection raises iff no provider is enabled, of the target class or higher, and not failed; otherwise it hands out the one of lowest class, then priority number, then registration |
| ModelRouter.CostInThousandths | src/admin/model_gateway.py:52-67 | the cost of a call: each side's tokens at its own rate, or at the common one when it has none |
| ModelRouter.FailingHeadPops | src/admin/model_gateway.py:372-426 | marking the returned provider as failed removes it and nothing else from the queue |
| ModelRouter.DrainIsQueue | src/admin/model_gateway.py:372-426 | asking again with each returned provider marked as failed hands out the whole queue in order, then raises |
| ModelRouter.DrainHandsOutEachOnce | src/admin/model_gateway.py:372-426 | every enabled provider at or above the class comes out exactly once, sorted by class and priority |
| ModelRouter.Router.ResolveProvider | src/agent/framework.py:409-433 | the agent's two-step resolution picks the same provider as one fallback selection without failures, and raises exactly when that does |
| BudgetEnforcer.InMemoryBudgetEnforcer.SetBudgetFor | src/admin/model_gateway.py:449-450 | that budget is in force for the repo afterwards, every other repo keeps its own, and both ledgers stay |
| BudgetEnforcer.LastBudgetIsInForce | src/admin/model_gateway.py:449-453 | after any sequence of calls the budget set last for a repo is in force |
| BudgetEnforcer.DefaultIsInForce | src/admin/model_gateway.py:153-158 | one dollar and 50,000 tokens are in force for a repo as long as none has been set |
| BudgetEnforcer.InMemoryBudgetEnforcer.Check | src/admin/model_gateway.py:455-459 | true iff the task's spend is below the limit in force |
| BudgetEnforcer.InMemoryBudgetEnforcer.Record | src/admin/model_gateway.py:461-479 | either both counters grow and end within the limit and cap in force, or nothing changes and the overflow is reported |
| BudgetEnforcer.LedgersAreSums | src/admin/model_gateway.py:449-479 | after any sequence of calls the spend and token counters are the sums over the accepted calls |
| BudgetEnforcer.SpendWasAllowed | src/admin/model_gateway.py:461-479 | a task that has spent is within the limit that was in force for its last accepted call |
| BudgetEnforcer.RefusalIsFinal | src/admin/model_gateway.py:461-479 | with non-negative costs and the budget left alone, a call refused for money stays refused at the same or a higher cost |
| BudgetEnforcer.KeysDiffer | src/admin/model_gateway.py:469-479 | with colon-free task ids no two (task, step) pairs share a counter |
| BudgetEnforcer.CountersAreSeparate | src/admin/model_gateway.py:469-479 | so each counter is the sum over exactly the accepted calls of its own pair |
| BudgetEnforcer.KeysCollide | src/admin/model_gateway.py:469-479 | two different pairs share a counter iff one task id continues the other after a colon and the steps make up for it |
| PipelineBudget.Budget.Consume | src/agent/framework.py:82-92 | grants iff used plus the cost is at most the cap, and only then adds the cost |
| PipelineBudget.Budget.GetRemaining | src/agent/framework.py:94-98 | what is returned and what is used make up the cap, and it is zero when more than the cap is used |
| PipelineBudget.StepRefines | src/agent/framework.py:75-108 | each step leaves the counter and the log alone or performs, in one piece, exactly the operation that the acting thread came in with, and logs its result for that thread |
| PipelineBudget.CallsAreAtomic | src/agent/framework.py:82-108 | every call that completes has, between its acquire and its release, exactly one log entry, its own, and moves the counter and gets the result as if made in one piece |
| PipelineBudget.EveryInterleaving | src/agent/framework.py:75-108 | over every schedule of any number of threads: used is the sum of the granted costs, never above a non-negative cap; a cost is refused exactly when it would exceed the cap at its turn; used plus remaining is the cap |
| PipelineBudget.EveryCallIsTold | src/agent/framework.py:75-104 | over every schedule, what each logged call returned: a grant iff the cost fits beside the costs granted before it, a read of `used` their sum, a read of `remaining` what that sum leaves of the cap, or zero |
| PipelineBudget.NothingBlocks | src/agent/framework.py:75-104 | over every schedule the free lock lets any thread in, and a thread that is in has exactly one next step, which brings its call closer to its end |
| PipelineBudget.RemainingReconciles | src/agent/framework.py:94-104 | whatever the signs of the costs, used plus remaining equals the cap iff the cap is not negative or some cost was granted |
| PipelineBudget.RefusalIsFinal | src/agent/framework.py:82-92 | with non-negative costs, no later request for the same or a higher cost is granted after a refusal |
| AgentRuns.AgentRunner.CheckTaskBudget | src/agent/framework.py:435-440 | passes iff there is no task or its spend is below the limit of its tier's budget |
| AgentRuns.AgentRunner.RecordAudit | src/agent/framework.py:442-485 | always appends one audit record, at half the cost for a discounted batch call; then records the same spend, and reports a rejection |
| AgentRuns.WhenSpendIsRejected | src/agent/framework.py:248-328 | a run on its own ends with its spend rejected iff it passed the check and its reservation, the LLM answered, and the call does not fit the budget of the empty repo key |
| AgentRuns.DefaultBinds | src/agent/framework.py:479-485 | over every interleaving in which nobody sets a budget for the empty repo key, recordings are measured against the default and no task's spend exceeds its limit |
| AgentRuns.RejectedUnderDefaults | src/agent/framework.py:435-485 | from the start and with no budget set, a run that passed its check ends with its spend rejected when the task's spend is below the default limit and the next cost does not fit |
| AgentRuns.OtherBudgetsBindNothing | src/agent/framework.py:435-485 | leaving out every budget set for a repo that is neither the empty key nor a run's tier leaves the runs, the pipeline counter, the audits and both ledgers of any schedule as they are |
| AgentRuns.OneOtherBudget | src/agent/framework.py:435-485 | one such budget, set at any point of any schedule, makes no difference to runs, counter, audits or ledgers |
| AgentRuns.BudgetSetLastCounts | src/admin/model_gateway.py:449-453 | over every interleaving the budget set last for a repo is in force, whatever the runs do in between |
| AgentRuns.AgentRunner.RunAgent | src/agent/framework.py:235-366 | the method does to the shared stores what the step machine does when the run is alone, with the same exit, and so meets the exit law and the effect law |
| AgentRuns.ExitOfARun | src/agent/framework.py:248-366 | the exit law, over the guards alone: each of the nine exits is taken iff all guards before it hold and its own fails; a run is completed iff the LLM answered, the spend was taken, and the answer parsed if a schema is set |
| AgentRuns.EffectOfARun | src/agent/framework.py:248-339 | the effect law: reserved iff within the task's budget and the cap, one record of the call iff the LLM answered, and its cost and tokens on exactly its own task and step iff the enforcer takes them |
| AgentRuns.AloneIsInterleaving | src/agent/framework.py:235-366 | a run in one go is one schedule of the interleaved machine |
| AgentRuns.CallsStayWithinCap | src/agent/framework.py:248-366 | over every interleaving, used is exactly the sum of all reservations, also of runs that fell back later, and the budgets of the runs that reached the LLM sum to at most the cap |
| AgentRuns.PhaseTellsPast | src/agent/framework.py:248-328 | over every interleaving a run counts as reserved, called or audited iff it once stood right behind its reservation, at the call, or behind its audit |
| AgentRuns.LedgersReconcile | src/agent/framework.py:318-328 | per task, audited cost equals enforced spend plus the cost of exactly the calls whose spend was rejected |
| AgentRuns.OneAuditPerCall | src/agent/framework.py:442-485 | every completed LLM call leaves exactly one audit record, also when it raised afterwards; other runs leave none |
| AuditStore.InMemoryModelAuditStore.Query | src/admin/model_gateway.py:514-528 | the three optional filters in turn, newest first, cut to the limit |
| AuditStore.QueryIsNewest | src/admin/model_gateway.py:514-528 | what a query leaves out is the rest of the matching records, none newer than any returned one |
| AuditStore.LookedFor | src/admin/model_gateway.py:514-528 | which records match: each filter given, compared with the record's own task, step and provider |
| AuditStore.QueryInFull | src/admin/model_gateway.py:514-528 | at most the limit, all matching, by falling creation time; a matching record is missing only if the limit is reached and none returned is older |
| AuditStore.SliceInFull | src/admin/model_gateway.py:528 | the cut for every limit, negative ones included |
| AuditStore.TruncateThenFilter | src/admin/model_spend.py:163-169 | cutting the newest-first list to the limit before applying the window equals applying the window first |
| ModelSpend.Aggregate | src/admin/model_spend.py:133-160 | the grouping loops and in-place sort yield one summary per key, in the specified order |
| ModelSpend.BreakdownPartitions | src/admin/model_spend.py:133-160 | for every key function the groups' cost, tokens, calls and errors sum to the totals of all records |
| ModelSpend.BreakdownOrder | src/admin/model_spend.py:148-160 | groups come out by falling cost, equal costs by rising key |
| ModelSpend.BreakdownFalls | src/admin/model_spend.py:148-160 | the same order in figures and keys |
| ModelSpend.BreakdownInFull | src/admin/model_spend.py:133-160 | one summary for each key that some record has, of exactly the records with that key, and no other |
| ModelSpend.TotalsInFull | src/admin/model_spend.py:143-158 | each total is the sum of its own figure; a call is an error iff its error class is not empty |
| ModelSpend.LatencyInFull | src/admin/model_spend.py:146-147 | the mean latency is that of the calls with a latency above zero |
| ModelSpend.GetSpendReport | src/admin/model_spend.py:163-196 | totals, the five breakdowns and the cache hit rate of the records in the window |
| ModelSpend.ReportReconciles | src/admin/model_spend.py:163-196 | each breakdown of a report adds up to its totals, and the records are the newest 10,000 of the window |
| ModelSpend.ReportInFull | src/admin/model_spend.py:175-195 | total cost, number of calls, cached tokens created and read, and the share of the cached tokens that were read |
| ModelSpend.CallIsListed | src/admin/model_spend.py:184-189 | every call has a summary under its provider, its step, model and repo (or `unknown`) and its day |
| ModelSpend.WindowInFull | src/admin/model_spend.py:163-169 | the records of a report are those from the cutoff on, all of them unless the query limit is reached, and then the newest |
| ModelSpend.GetBudgetUtilization | src/admin/model_spend.py:98-130 | spend, active tasks and share of the limit per tier, from one pass over the window |
| ModelSpend.TiersPartition | src/admin/model_spend.py:98-130 | the three tier spends sum to the window's total cost |
| ModelSpend.UtilizationInFull | src/admin/model_spend.py:110-130 | a tier's line: the cost and the different tasks of the calls whose role names the tier; calls with any other role count for observe |
| ModelSpend.ShareOfLimit | src/admin/model_spend.py:121-122 | the percentage times the limit is a hundred times the spend, and zero without a limit |
| LineWrap.WrapToLines | scripts/convert-agents.py:418-434 | the loop with its tracked length yields the greedy lines: words kept in order, lines of two or more words fit, and no other layout has fewer lines |
| LineWrap.WrappedIsOptimal | scripts/convert-agents.py:418-434 | the same of the wrapping function, for all texts and widths |
| LineWrap.BreaksOnlyWhenFull | scripts/convert-agents.py:424-432 | a line is closed only when a space and the next word do not fit behind it |
| LineWrap.WrappedFoldsBack | scripts/convert-agents.py:379-383 | folding the printed lines back, as a `>-` block scalar does, gives the text with its whitespace normalised |
| AgentFiles.SplitLinesJoins | scripts/convert-agents.py:365-398 | splitting a text at line breaks and joining gives it back, with no line break left inside a line |
| AgentFiles.FormatFrontmatterClaude | scripts/convert-agents.py:365-398 | the appended lines, joined, are the front-matter text of the configuration |
| AgentFiles.FormatFrontmatterCursor | scripts/convert-agents.py:401-415 | the same for the second tool |
| AgentFiles.EntryInPlace | scripts/convert-agents.py:365-415 | a key's lines stand between those of the keys before and those of the keys after it |
| AgentFiles.ClaudePrints | scripts/convert-agents.py:367-397 | what Claude's front matter prints for each kind of value, line by line |
| AgentFiles.ClaudeFolds | scripts/convert-agents.py:373-383 | a text with line breaks or of more than 80 characters becomes a `>-` block whose lines, unindented, join to the text or fold back to its words |
| AgentFiles.CursorPrints | scripts/convert-agents.py:403-413 | what Cursor's front matter prints: booleans, and texts and list items in quotes; nothing for the other kinds |
| AgentFiles.DecimalReadsBack | scripts/convert-agents.py:370-371 | a printed number is a numeral without leading zeros and reads back |
| AgentFiles.FileStore.GenerateFile | scripts/convert-agents.py:446-469 | path and content for a job given the files on disk: front matter, an empty line, and the stripped body (fixed, read back, or made up) with a line break |
| AgentFiles.ExtractCuts | scripts/convert-agents.py:437-443 | the body read back is what follows the second of the first two disjoint `---`, stripped |
| AgentFiles.ExtractWhole | scripts/convert-agents.py:437-443 | without two disjoint `---` it is the whole text, stripped |
| AgentFiles.LineBreaksTranslate | scripts/convert-agents.py:439 | reading turns each of the three line breaks into one newline and changes nothing else |
| AgentFiles.FileStore.WriteFiles | scripts/convert-agents.py:500-507 | the store after all jobs have been written in order; on distinct outputs each persona's Claude and Cursor files hold what the two tools print for it, and no other file changes |
| AgentFiles.FileStore.CheckDrift | scripts/convert-agents.py:472-497 | a path is listed iff it is some persona's Claude or Cursor output and missing or different, trailing whitespace aside; in persona order, Claude's before Cursor's |
| AgentFiles.PersonasWritten | scripts/convert-agents.py:500-507 | after a write to distinct outputs, for every persona and each of the two tools, the output is there with what is generated for the persona's canonical path and that tool's configuration |
| AgentFiles.OthersUntouched | scripts/convert-agents.py:500-507 | a path that is no persona's output keeps its content, or its absence |
| AgentFiles.ReportIsStale | scripts/convert-agents.py:472-497 | the check lists a path iff some persona's output for one of the tools is that path and is stale |
| AgentFiles.ReportInOrder | scripts/convert-agents.py:476-495 | the list follows the personas, and for each Claude before Cursor, leaving out exactly what is not stale |
| AgentFiles.PersonasWriteThenCheck | scripts/convert-agents.py:472-507 | over the personas: with distinct outputs, write then check lists exactly the outputs of the tools whose job is not clean |
| AgentFiles.FixedBodyStable | scripts/convert-agents.py:446-469 | a fixed body reads back as written iff it has no carriage return before its trailing whitespace |
| AgentFiles.ReadBodyStable | scripts/convert-agents.py:437-469 | a body that is read back is found again iff no `---` occurs between the delimiters |
| AgentFiles.DriftOfWritten | scripts/convert-agents.py:446-497 | a file that holds what was generated for it drifts iff its job is not clean |
| AgentFiles.WriteThenCheck | scripts/convert-agents.py:472-507 | for any prior contents and distinct outputs, write then check lists exactly the outputs of unclean jobs; nothing iff all are clean |
| AgentFiles.WriteTwice | scripts/convert-agents.py:446-507 | a second write changes no file iff every body that is re-read has no `---` before it and, when made up, no carriage return from the canonical path |
| AgentFiles.SharedOutputDrifts | scripts/convert-agents.py:472-507 | distinct outputs are needed: of two clean jobs on one path with different bodies, drift is reported |
| AgentFiles.SharedOutputs | scripts/convert-agents.py:472-507 | with shared outputs and fixed bodies, write then check reports nothing iff every job is clean and prints the same text, trailing whitespace aside, as the last writer of its path |
| ComplianceChecker.Checker.CheckRulesets | src/compliance/checker.py:171-208 | records the ruleset check exactly once with the verdict of the specification, or raises exactly when a scan of some rules meets no list or a rule that is no object before a status check |
| ComplianceChecker.Checker.CheckRequiredReviewers | src/compliance/checker.py:210-266 | records the reviewer check once, or raises exactly when, without CODEOWNERS, the review setting is no object or its approval count cannot be compared with a number |
| ComplianceChecker.Checker.CheckBranchProtection | src/compliance/checker.py:268-307 | records the branch-protection check once, or raises exactly when the review setting is neither empty nor an object |
| ComplianceChecker.Checker.CheckLabels | src/compliance/checker.py:309-335 | records the label check exactly once; it passes iff no required label is missing |
| ComplianceChecker.Checker.CheckProjectsV2 | src/compliance/checker.py:337-426 | records the project check exactly once on every path, exceptions included |
| ComplianceChecker.Checker.CheckProbe | src/compliance/checker.py:428-526 | each of the three platform checks records one result, failed on an exception |
| ComplianceChecker.Checker.CheckExecuteTierPolicy | src/compliance/checker.py:560-616 | records the execute-tier policy exactly once |
| ComplianceChecker.Checker.CheckCompliance | src/compliance/checker.py:93-169 | resets, runs the checklist in order and tallies it; there is no result exactly when one of those three checks raises |
| ComplianceChecker.RepositoryDemands | src/compliance/checker.py:171-335 | rulesets and labels in full: a rule of type `required_status_checks` in some ruleset, and each of the five labels |
| ComplianceChecker.ReviewDemands | src/compliance/checker.py:210-307 | reviewers and branch protection in full: CODEOWNERS or a positive approval count, and a review setting that is not empty |
| ComplianceChecker.PlatformDemands | src/compliance/checker.py:337-616 | the platform's demands in full: the six project fields, three healthy probes, automatic merging and the four sensitive paths |
| ComplianceChecker.WhenChecksRaise | src/compliance/checker.py:171-307 | the exact condition for a run to raise, over what GitHub answered |
| ComplianceChecker.NullRaises | src/compliance/checker.py:218-223 | a null review setting and a null approval count raise without CODEOWNERS and not with it |
| ComplianceChecker.NonObjectRaises | src/compliance/checker.py:282-296 | a review setting that is no object raises iff it is truthy or there is no CODEOWNERS |
| ComplianceChecker.RuleListRaises | src/compliance/checker.py:184-189 | a list of rules raises iff a rule that is no object comes before the first status check |
| ComplianceChecker.ScoreMeansPassed | src/compliance/checker.py:140-169 | the score lies in 0 to 100 and is 100 iff the overall result passes, iff every listed check is met |
| ComplianceChecker.ScoreTimes | src/compliance/checker.py:143-147 | the score times the number of checks is a hundred times those that passed |
| ComplianceChecker.NineDistinctChecks | src/compliance/checker.py:120-138 | for EXECUTE the checklist holds nine distinct checks: all but the scan of a text for adversarial content, which no run makes |
| ComplianceChecker.PassedMeansNine | src/compliance/checker.py:120-169 | a passing execute-tier result lists all nine checks, each once, each passed |
| ComplianceChecker.PolicyImpliesReviewers | src/compliance/checker.py:560-616 | meeting the execute-tier policy implies the reviewer check passes and does not raise |
| TierLifecycle.PromotionService.CheckPromotionEligibility | src/compliance/promotion.py:171-278 | the verdict with its exact condition for each reason, and a blocked record naming exactly the unmet demands iff the gate said no |
| TierLifecycle.PromotionService.PromoteRepo | src/compliance/router.py:308-341 | succeeds iff the repository is registered, the target is exactly one rank above its tier, no workflow is active, and for EXECUTE no check raises and all nine demands are met; then that tier changes and one record is logged, otherwise no tier changes |
| TierLifecycle.PromotionService.DemoteRepo | src/compliance/router.py:374-404 | succeeds iff the target has a lower rank; then that tier changes and one record is logged, otherwise nothing changes |
| TierLifecycle.VerdictsAreLawful | src/compliance/promotion.py:195-278 | the condition of every verdict, over the ranks of the tiers, the active workflows and the nine demands |
| TierLifecycle.JudgingLeaves | src/compliance/promotion.py:218-275 | judging changes no repository and logs one record, of the unmet demands, iff the gate said no |
| TierLifecycle.TablesAreRanks | src/compliance/promotion.py:122-133 | the promotion table is the climbs by one rank, the demotion table the descents |
| TierLifecycle.EveryRecordClimbsOrDescends | src/compliance/promotion.py:122-133 | over every run, a record without remediation climbs exactly one rank or descends; one with remediation is a refused step from SUGGEST to EXECUTE |
| TierLifecycle.PromotionService.CheckEligibility | src/compliance/router.py:486-513 | asking changes no tier, but may log a blocked attempt |
| TierLifecycle.PromotionService.RegisterRepo | src/compliance/router.py:536-566 | registers at OBSERVE unless the full name is taken |
| TierLifecycle.PromotionService.DeleteRepo | src/compliance/router.py:705-712 | removes the repository; an unknown id is reported |
| TierLifecycle.NamesStayDistinct | src/compliance/router.py:536-566 | over every run no two registered repositories have the same name |
| TierLifecycle.LogLeadsToTier | src/compliance/promotion.py:122-133 | over every run, a repository's log without its blocked records is a connected chain of climbs by one rank and descents from OBSERVE to the stored tier |
| TierLifecycle.RecordsAreSound | src/compliance/promotion.py:227-275 | over every run, a record has remediation items iff it is an attempt the gate turned down, and every move into EXECUTE rests on nine distinct passed checks with score 100 |
| TierLifecycle.BareRepoNeverExecutes | src/compliance/router.py:536-566 | a repository registered through the endpoint never reaches EXECUTE in memory |
| Assembler.ResolveWithIntent | src/assembler/assembler.py:311-337 | the first constraint that mentions a side's assumptions decides, the first side before the second |
| Assembler.FirstMentionDecides | src/assembler/assembler.py:311-337 | the first constraint with an assumption of either side in it decides for the first side if it has one of its assumptions in it, else for the second; without any the pair stays unresolved |
| Assembler.DetectConflicts | src/assembler/assembler.py:264-308 | the nested loops list the conflicts of all pairs in order |
| Assembler.ConflictsAreDivergingPairs | src/assembler/assembler.py:264-308 | the conflicts are exactly the pairs that diverge, one record a pair, in the order of the experts, at most n(n-1)/2 |
| Assembler.DivergeMeans | src/assembler/assembler.py:278-287 | two experts diverge iff one assumption is held by both, one only by the first and one only by the second |
| Assembler.ConflictTells | src/assembler/assembler.py:284-306 | a conflict names both experts, describes what each alone assumes, and is resolved over exactly those assumptions |
| Assembler.AppendedConstraint | src/assembler/assembler.py:311-337 | appending a constraint keeps every conflict in place and never changes a resolved one |
| Assembler.ResolutionIsStable | src/assembler/assembler.py:311-337 | an unresolved pair is decided by the appended constraint alone |
| Assembler.SwappedResolution | src/assembler/assembler.py:311-337 | swapping the experts keeps whether and by which constraint a pair is resolved, and mirrors the winner iff that constraint does not mention both sides |
| Assembler.ReorderingExperts | src/assembler/assembler.py:264-308 | reordering the experts keeps the conflicts as unordered pairs with their status, repetitions included |
| PlanAssembly.Assemble | src/assembler/assembler.py:118-261 | numbered steps, conflicts, escalations, refinement, risks, QA mappings and provenance all meet their specifications |
| PlanAssembly.EveryLineHasItsStep | src/assembler/assembler.py:141-167 | each recommendation and validation has its own step, in expert order, checkpoints last, with its number, text and expert |
| PlanAssembly.EveryStepHasItsLine | src/assembler/assembler.py:141-167 | each step is numbered by its place and stems from exactly one line of one expert |
| PlanAssembly.Escalate | src/assembler/assembler.py:172-195 | one escalation per high-risk unresolved conflict, in order, naming a risk term that occurs |
| PlanAssembly.HighRiskInFull | src/assembler/assembler.py:172-182 | which conflicts are of high risk: one of the six terms occurs in the lower-cased names and description |
| PlanAssembly.EscalationsAreSubsequence | src/assembler/assembler.py:172-195 | the escalations are a subsequence of the unresolved conflicts, exactly the high-risk ones |
| PlanAssembly.RequestRefinement | src/assembler/assembler.py:197-211 | refinement is requested iff some conflict is unresolved, with one question each and the first as trigger |
| PlanAssembly.BuildQaHandoff | src/assembler/assembler.py:340-372 | one mapping per criterion in order: non-empty steps, duplicate-free experts, a generic step when nothing matches |
| PlanAssembly.OverlapIsSharedWord | src/assembler/assembler.py:396-401 | a validation matches iff it shares a word of four or more letters |
| PlanAssembly.CreditedExperts | src/assembler/assembler.py:350-358 | an expert is credited with a criterion iff one of its own validations matches it |
| PlanAssembly.MappedSteps | src/assembler/assembler.py:347-372 | a mapping's steps are exactly the validations that share a word of four or more letters with the criterion; only without any, the generic one |
| PlanAssembly.EveryRiskIsListed | src/assembler/assembler.py:210-219 | each risk of each expert has its own place, with the fixed mitigation and severity, and nothing else is listed |
| PlanAssembly.DecisionSteps | src/assembler/assembler.py:243-250 | the non-checkpoint steps are exactly the leading recommendation steps |
| PlanAssembly.BuildProvenance | src/assembler/assembler.py:228-250 | decision provenance equals the non-checkpoint steps in order, and every expert is listed |
| PlaneRegistry.ExecutionPlaneRegistry.Register | src/compliance/plane_registry.py:79-84 | adds a new active plane without repos |
| PlaneRegistry.ExecutionPlaneRegistry.ListPlanesFacts | src/compliance/plane_registry.py:86-88 | the listing holds exactly the registered planes, by rising creation time |
| PlaneRegistry.ExecutionPlaneRegistry.AssignRepo | src/compliance/plane_registry.py:94-102 | adds that one pair to the relation of planes and repos, and lists no repo twice |
| PlaneRegistry.ExecutionPlaneRegistry.UnassignRepo | src/compliance/plane_registry.py:104-112 | removes that one pair; removing the first occurrence is enough |
| PlaneRegistry.ExecutionPlaneRegistry.SetStatus | src/compliance/plane_registry.py:114-121 | gives that plane the status and leaves every other plane and all pairs alone |
| PlaneRegistry.ExecutionPlaneRegistry.GetHealthSummary | src/compliance/plane_registry.py:123-137 | one summary per listed plane, healthy iff active |
| PlaneRegistry.ExecutionPlaneRegistry.TotalRepoCount | src/compliance/plane_registry.py:139-144 | the number of different repos in the relation |
| PlaneRegistry.ExecutionPlaneRegistry.Delete | src/compliance/plane_registry.py:146-156 | deletes iff the plane is registered and holds nothing, so no pair is lost |
| PlaneRegistry.HoldsStep | src/compliance/plane_registry.py:94-156 | a pair appears only by an accepted assign and disappears only by an unassign or a fresh registration of the plane |
| PlaneRegistry.HeldMeansAssigned | src/compliance/plane_registry.py:79-156 | after any run a plane holds a repo iff an accepted assignment was not undone since |
| PlaneRegistry.StatusIsLastSet | src/compliance/plane_registry.py:79-121 | after any run a registered plane's status is the one set last on it since its last registration, and active if none was |
| PlaneRegistry.RegisteredMeans | src/compliance/plane_registry.py:79-156 | after any run a plane is registered iff it was registered at some point and not deleted since while holding nothing |
| PlaneRegistry.CountedMeansAssigned | src/compliance/plane_registry.py:139-144 | the repos counted are those with a standing assignment to some plane |
| Scorecard.Score | src/admin/compliance_scorecard.py:126-193 | each of the eight checks reports its own datum once, and the scorecard passes iff all do |
| Scorecard.ScoredPlainly | src/admin/compliance_scorecard.py:126-193 | the eight checks by name with their flags, and a pass iff all eight are set |
| Scorecard.ComplianceScorecardService.FetchComplianceData | src/admin/compliance_scorecard.py:204-237 | the stored flags, and plane health iff some active plane holds the repo at that moment |
| Scorecard.ComplianceScorecardService.Evaluate | src/admin/compliance_scorecard.py:100-198 | answers and changes the cache as the request semantics says: a call without data returns the latest computed scorecard, not invalidated since and, unless computed now, less than 3600 seconds old; every computed one is cached |
| Scorecard.ComplianceScorecardService.InvalidateCache | src/admin/compliance_scorecard.py:200-202 | removes that repo's entry and no other |
| Scorecard.CachedMeansLatest | src/admin/compliance_scorecard.py:96-202 | over every history, an entry is cached iff it is the repo's latest scorecard and nothing has invalidated it since |
| Scorecard.PlaneHealthWasTrue | src/admin/compliance_scorecard.py:204-237 | a fetched scorecard's plane check says whether an active plane held the repo when it was computed, and a pass needs that and stored data |
| Scorecard.AnswerIsTraced | src/admin/compliance_scorecard.py:100-202 | over every interleaving of registry operations, store updates, invalidations and evaluations, a scorecard returned without data was computed by one request, under 3600 seconds before unless by this one, with nothing touching the repo's entry in between |
| Scorecard.AnswerTellsTruth | src/admin/compliance_scorecard.py:100-237 | every answer to a request without data was computed at most an hour before and tells the truth of that moment: its plane check says whether an accepted, not undone assignment of the repo to a plane stood whose last status was active, and it passes iff that was so and the data stored last for the repo had the other seven flags set |
| Scorecard.ServedMeansAssigned | src/admin/compliance_scorecard.py:226-235 | an active plane holds a repo iff some plane is registered, was made active last, and has a standing assignment of it |
| Scorecard.StoreIsLastSet | src/admin/compliance_scorecard.py:240-253 | after any run the store holds, for each repo, the data stored last for it |
| Metrics.Categorize | src/admin/metrics.py:208-216 | the first category of which a keyword occurs in the step, else other |
| Metrics.CategoryInFull | src/admin/metrics.py:20-24 | which texts fall into which category: lint before test before security before other |
| Metrics.GetLoopbacks | src/admin/metrics.py:188-222 | total, per-repo tally and the four category entries of the loopbacks that pass the filter; an exception iff the step of one of them is present and no text |
| Metrics.LoopbacksReconcile | src/admin/metrics.py:188-222 | category counts and per-repo counts each sum to the total, and the percentages to 100 |
| Metrics.LoopbacksInFull | src/admin/metrics.py:188-222 | the four entries in alphabetical order, each with the loopbacks that count as its category and their percentage, and the number for each repo |
| Metrics.KeptInFull | src/admin/metrics.py:124-126 | which signals pass a repo filter, and which of them are loopbacks |
| Metrics.FilteredTotal | src/admin/metrics.py:193-206 | a repo's filtered total equals its unfiltered tally iff the repo id is not empty or all loopbacks are its own |
| Metrics.GroupByCorrelation | src/admin/metrics.py:121-130 | the signals of each correlation id in order, ids in order of first appearance |
| Metrics.IdsExact | src/admin/metrics.py:121-130 | every correlation id is a workflow exactly once, with at least one signal |
| Metrics.FirstOfGroup | src/admin/metrics.py:152-154 | a workflow's time stamp and repo are those of the first signal with its id |
| Metrics.GetSinglePass | src/admin/metrics.py:110-186 | overall counts and rates, and rates per repo, of the workflows that pass the filter |
| Metrics.FiguresInFull | src/admin/metrics.py:110-171 | the four figures over the signals: the ids whose first signal came in the last 7 or 30 days, and those of them with a passed verification or QA and no failed one |
| Metrics.RepoFiguresInFull | src/admin/metrics.py:152-171 | the same for a repo: of the ids whose first signal is of it |
| Metrics.PassInFull | src/admin/metrics.py:137-150 | a workflow passes at once iff verification or QA passed in it and none of the four failures occurred |
| Metrics.RatesInFull | src/admin/metrics.py:173-180 | each rate is the share of its successes, and zero without workflows |
| Metrics.RepoCountsAt | src/admin/metrics.py:156-171 | a repo's tallies count exactly the workflows whose first signal is of that repo |
| Metrics.RepoCountsSum | src/admin/metrics.py:156-171 | the per-repo tallies sum to the overall counts, figure by figure |
| Metrics.WindowsNest | src/admin/metrics.py:159-171 | 7-day counts never exceed 30-day ones, nor successes totals |
| Metrics.FilteredWorkflows | src/admin/metrics.py:121-154 | the workflows under a repo filter are exactly those that the unfiltered result counts for the repo iff no workflow with a signal of the repo has one of another; for the empty id, iff every workflow starts there |
| Metrics.FilteredCounts | src/admin/metrics.py:121-171 | under that condition all four figures equal the repo's unfiltered tallies |
| Metrics.FilteredTotals | src/admin/metrics.py:121-171 | the numbers of workflows agree with the unfiltered tallies at every time iff every workflow that the filter shows starts in the repo |
| Metrics.FilteredFigures | src/admin/metrics.py:121-171 | all four figures agree at every time iff moreover, for every start time, as many of the workflows shown as of the repo's own passed at once |
| Metrics.SpanningWorkflow | src/admin/metrics.py:121-171 | a recent workflow that starts in another repo counts under the filter and not in the unfiltered tally |
| Percentiles.PercentileIsUniqueSplit | src/admin/operational_targets.py:90-101 | a percentile is the one value v with count(below v) at most p times n and count(up to v) above it |
| Percentiles.ClampNeverNeeded | src/admin/operational_targets.py:97-99 | the index is always inside the list |
| Percentiles.OrderDoesNotMatter | src/admin/operational_targets.py:90-101 | permuting the values changes no percentile |
| Percentiles.PercentilesRise | src/admin/operational_targets.py:90-101 | p50, p95 and p99 rise in that order |
| Percentiles.OperationalTargetsService.GetTimes | src/admin/operational_targets.py:246-272 | the measures of the events in the window that pass the filter, or the injected ones when there are none |
| Percentiles.CollectedInOrder | src/admin/operational_targets.py:246-272 | the collected values are the measures of exactly the counted events that have one, in order |
| Percentiles.WindowInFull | src/admin/operational_targets.py:246-272 | which events count, by repo and age, and which approvals, by the beginning of the task packet's id and age |
| Percentiles.TimesInFull | src/admin/operational_targets.py:113-127 | lead and cycle time in seconds; where there are both they add up to the way from intake to merge-ready |
| Percentiles.LatencyInFull | src/admin/operational_targets.py:174-180 | the latency of an approval in seconds |
| Percentiles.OperationalTargetsService.GetLeadTime | src/admin/operational_targets.py:274-302 | the lead-time percentiles split those values, with their count and the minimum-sample flag |
| Percentiles.OperationalTargetsService.GetCycleTime | src/admin/operational_targets.py:304-332 | the same for cycle times |
| Percentiles.OperationalTargetsService.GetApprovalBaseline | src/admin/operational_targets.py:365-417 | counts per outcome, timeout rate, and median and p95 latency of the selected approvals |
| Percentiles.OutcomesPartition | src/admin/operational_targets.py:385-389 | the three outcome counts make up the samples iff every event ended in one of them |
| Percentiles.ApprovalsInFull | src/admin/operational_targets.py:385-389 | the three counts are those of the events with the three outcomes |

## Left out

- HTTP routes, templates, the React front end, health probes, GitHub, Anthropic, Temporal, NATS and Docker clients: foreign calls and user interface.
- SQL and SQLAlchemy-backed stores, including the administrator's tier override: their meaning lies in the database.
- Concurrent tier requests and concurrent checks on one checker: the code does not serialise them; each request runs to completion here.
- Tool policy, RBAC tables, isolation policy, merge mode, success gate, complexity bands: finite tables that would add only easy members.
- Regular-expression scanners, prompt texts, JSON extraction, context compression and the agentic (Ralph) call path of an agent run.
- Float rounding and `round` for display: money, rates and percentages are exact, so `int(p * n)` is the exact floor.
- `str.lower`, the printing of a set in a conflict's description and `strftime` are parameters; nothing is assumed of them.
- Aliasing: a provider object shared by two routers, and a cached scorecard changed by its receiver; both are values here. A caller that keeps a provider and writes to it directly is not modelled.
- Audit records without their overlays, correlation id and batch flag.
- Payload entries other than the step: a repo id is a text or absent.
- Fresh ids: plane and repository ids are arguments. Registering a plane under an id in use is modelled as the overwrite that the dictionary would do.
- Paths are texts without normalisation; creating directories, failing writes, files that are not UTF-8 and platforms that translate newlines on writing are not part of the model.
- `get_reopen` and `get_reopen_target`, `list_registered_repos`, pause, resume and write switches, and the `clear` methods: no property beyond their bodies.
- Plan, task-packet and correlation ids, intent version and the constant texts of escalations, decisions and resolutions of a plan: they are copied through or fixed.
- Detail texts and remediation descriptions of compliance checks and scorecards: only which check passed is kept.
- The original keeps only the ids of compliance results in the log; `TierLifecycle` also keeps the results, to say what the ids stand for.
- The scan of a text for adversarial content itself: a check of its own that no compliance run makes.
- The YAML reader of `scripts/agent-catalog.py`: of YAML only the folding of `>-` blocks is used (section 8.1.3 of YAML 1.2.2).
