/** Repository tiers: registration, promotion behind the compliance gate, demotion, and the
    append-only log that holds both real and blocked transitions. */
module TierLifecycle {
  import opened Wrappers
  import opened ComplianceChecker

  datatype Tier = Observe | Suggest | Execute

  type RepoId = nat

  function Promotions(t: Tier): seq<Tier> {
    match t case Observe => [Suggest] case Suggest => [Execute] case Execute => []
  }

  function Demotions(t: Tier): seq<Tier> {
    match t case Observe => [] case Suggest => [Observe] case Execute => [Suggest, Observe]
  }

  function Rank(t: Tier): nat {
    match t case Observe => 0 case Suggest => 1 case Execute => 2
  }

  predicate ClimbsOne(from: Tier, to: Tier) {
    Rank(to) == Rank(from) + 1
  }

  predicate Descends(from: Tier, to: Tier) {
    Rank(to) < Rank(from)
  }

  /** A tier may be left for the next higher one, or for any lower one. */
  predicate Legal(from: Tier, to: Tier) {
    ClimbsOne(from, to) || Descends(from, to)
  }

  /** The edges of the two tables are exactly the climbs by one rank and the descents. */
  lemma TablesAreRanks(from: Tier, to: Tier)
    ensures to in Promotions(from) <==> Rank(to) == Rank(from) + 1
    ensures to in Demotions(from) <==> Rank(to) < Rank(from)
  {}

  /** A log record. `remediation` names the failed checks of a blocked promotion. */
  datatype Transition = Transition(
    repo: RepoId, from: Tier, to: Tier, triggeredBy: string, score: Option<real>, resultId: Option<nat>,
    remediation: seq<Check>)

  datatype Repo = Repo(fullName: string, info: RepoInfo, tier: Tier)

  /** The in-memory registry and the transition log. `results` holds what the result ids in the
      log stand for; the original keeps the ids only. */
  datatype State = State(repos: map<RepoId, Repo>, log: seq<Transition>, results: seq<ComplianceResult>)

  const START := State(map[], [], [])

  datatype BlockReason = AlreadyAtTier | InvalidCurrentTier | ActiveWorkflows | ComplianceFailed

  /** Eligible with the result that allowed it (if one was needed), blocked, or an exception
      out of the checker. */
  datatype Verdict =
    | Eligible(score: Option<real>, resultId: Option<nat>)
    | Blocked(reason: BlockReason)
    | CheckerRaised

  /** What lies outside: whether workflows are active, if that is asked, and the platform. */
  datatype Env = Env(activeWorkflows: bool, platform: Platform)

  const ELIGIBILITY_CHECK := "eligibility_check"

  function Judge(s: State, id: RepoId, target: Tier, info: RepoInfo, current: Tier, env: Env): (State, Verdict) {
    if current == target then (s, Blocked(AlreadyAtTier))
    else if target !in Promotions(current) then (s, Blocked(InvalidCurrentTier))
    else if env.activeWorkflows then (s, Blocked(ActiveWorkflows))
    else if target != Execute then (s, Eligible(None, None))
    else if CheckRaises(info) then (s, CheckerRaised)
    else
      var result := Evaluate(info, env.platform, true, true);
      var resultId := |s.results|;
      var judged := s.(results := s.results + [result]);
      if !result.overallPassed then
        (judged.(log := judged.log + [Transition(id, current, target, ELIGIBILITY_CHECK, Some(result.score),
                                                 Some(resultId), FailedChecks(result.checks))]),
         Blocked(ComplianceFailed))
      else (judged, Eligible(Some(result.score), Some(resultId)))
  }

  /** The gate to EXECUTE: no check raises, and each of the nine demands is met. */
  ghost predicate GateOpens(info: RepoInfo, p: Platform) {
    !CheckRaises(info) && forall c: Check :: c != AdversarialContent ==> Passes(c, info, p)
  }

  /** What a verdict says, reason by reason. A tier can be entered only from the one right below it,
      without active workflows, and EXECUTE only through the gate. */
  ghost predicate VerdictLaw(target: Tier, info: RepoInfo, current: Tier, env: Env, v: Verdict) {
    var climbs := target != current && Rank(target) == Rank(current) + 1;
    var gated := climbs && !env.activeWorkflows && target == Execute;
    && (v == Blocked(AlreadyAtTier) <==> target == current)
    && (v == Blocked(InvalidCurrentTier) <==> target != current && !climbs)
    && (v == Blocked(ActiveWorkflows) <==> climbs && env.activeWorkflows)
    && (v == CheckerRaised <==> gated && CheckRaises(info))
    && (v == Blocked(ComplianceFailed) <==> gated && !CheckRaises(info) && !GateOpens(info, env.platform))
    && (v.Eligible? <==> climbs && !env.activeWorkflows && (target == Execute ==> GateOpens(info, env.platform)))
  }

  /** The record of an attempt that the gate turned down names exactly the demands that are not met. */
  ghost predicate IsBlockedRecord(t: Transition, id: RepoId, target: Tier, info: RepoInfo, current: Tier, p: Platform) {
    && t.repo == id && t.from == current && t.to == target && t.triggeredBy == "eligibility_check"
    && t.remediation != []
    && forall c: Check :: c in t.remediation <==> c != AdversarialContent && !Passes(c, info, p)
  }

  /** What judging leaves behind: the repositories as they are, and one record iff the gate said no. */
  ghost predicate JudgeEffect(before: seq<Transition>, after: seq<Transition>, id: RepoId, target: Tier,
                              info: RepoInfo, current: Tier, env: Env, v: Verdict) {
    if v == Blocked(ComplianceFailed) then
      && |after| == |before| + 1 && after[..|before|] == before
      && IsBlockedRecord(after[|before|], id, target, info, current, env.platform)
    else after == before
  }

  lemma GateMeansPassed(info: RepoInfo, p: Platform)
    ensures Evaluate(info, p, true, true).overallPassed
            <==> forall c: Check :: c != AdversarialContent ==> Passes(c, info, p)
  {
    ScoreMeansPassed(info, p, true, true);
    NineDistinctChecks();
  }

  lemma VerdictsAreLawful(s: State, id: RepoId, target: Tier, info: RepoInfo, current: Tier, env: Env)
    ensures VerdictLaw(target, info, current, env, Judge(s, id, target, info, current, env).1)
  {
    TablesAreRanks(current, target);
    GateMeansPassed(info, env.platform);
  }

  lemma JudgingLeaves(s: State, id: RepoId, target: Tier, info: RepoInfo, current: Tier, env: Env)
    ensures var (j, v) := Judge(s, id, target, info, current, env);
      j.repos == s.repos && JudgeEffect(s.log, j.log, id, target, info, current, env, v)
  {
    var (j, v) := Judge(s, id, target, info, current, env);
    if v == Blocked(ComplianceFailed) {
      FailedDemands(info, env.platform);
    }
  }

  lemma FailedDemands(info: RepoInfo, p: Platform)
    ensures var r := Evaluate(info, p, true, true);
      && (FailedChecks(r.checks) == [] <==> r.overallPassed)
      && forall c: Check :: c in FailedChecks(r.checks) <==> c != AdversarialContent && !Passes(c, info, p)
  {
    NineDistinctChecks();
    var checks := Checklist(true, true);
    var rs := Results(checks, info, p);
    forall c: Check
      ensures CheckResult(c, false) in rs <==> c in checks && !Passes(c, info, p)
    {
      if c in checks && !Passes(c, info, p) {
        var i :| 0 <= i < |checks| && checks[i] == c;
        assert rs[i] == CheckResult(c, false);
      }
    }
  }

  function WithTier(s: State, id: RepoId, tier: Tier): State {
    if id in s.repos then s.(repos := s.repos[id := s.repos[id].(tier := tier)]) else s
  }

  /** A request to the in-memory endpoints. The new id of a registration is fresh. */
  datatype Request =
    | Register(id: RepoId, fullName: string, info: RepoInfo)
    | Promote(id: RepoId, target: Tier, actor: string, env: Env)
    | Demote(id: RepoId, target: Tier, actor: string)
    | AskEligibility(id: RepoId, target: Tier, env: Env)
    | Delete(id: RepoId)

  predicate NameTaken(s: State, fullName: string) {
    exists id :: id in s.repos && s.repos[id].fullName == fullName
  }

  function Moved(s: State, t: Transition): State {
    var m := WithTier(s, t.repo, t.to);
    m.(log := m.log + [t])
  }

  function Handle(s: State, r: Request): State {
    match r
    case Register(id, fullName, info) =>
      if NameTaken(s, fullName) then s else s.(repos := s.repos[id := Repo(fullName, info, Observe)])
    case Promote(id, target, actor, env) =>
      if id !in s.repos then s
      else
        var current := s.repos[id].tier;
        var (judged, verdict) := Judge(s, id, target, s.repos[id].info, current, env);
        if verdict.Eligible?
        then Moved(judged, Transition(id, current, target, actor, verdict.score, verdict.resultId, []))
        else judged
    case Demote(id, target, actor) =>
      if id !in s.repos || target !in Demotions(s.repos[id].tier) then s
      else Moved(s, Transition(id, s.repos[id].tier, target, actor, None, None, []))
    case AskEligibility(id, target, env) =>
      if id !in s.repos then s else Judge(s, id, target, s.repos[id].info, s.repos[id].tier, env).0
    case Delete(id) => s.(repos := s.repos - {id})
  }

  /** The record of a move: it names the two tiers and who asked, and has nothing to remedy. */
  predicate IsMove(t: Transition, id: RepoId, from: Tier, to: Tier, actor: string) {
    t.repo == id && t.from == from && t.to == to && t.triggeredBy == actor && t.remediation == []
  }

  datatype Response =
    | NotFound
    | Conflict
    | Registered
    | Failed
    | Answered(verdict: Verdict)
    | Done(success: bool, from: Tier, to: Tier)

  /** The promotion service with the in-memory registry behind its endpoints. */
  class PromotionService {
    var repos: map<RepoId, Repo>
    var transitions: seq<Transition>
    var results: seq<ComplianceResult>
    const checker: Checker

    ghost function Current(): State
      reads this
    {
      State(repos, transitions, results)
    }

    constructor (checker: Checker)
      ensures Current() == START && this.checker == checker
    {
      repos, transitions, results := map[], [], [];
      this.checker := checker;
    }

    method UpdateRepoTier(id: RepoId, tier: Tier)
      modifies this`repos
      ensures Current() == WithTier(old(Current()), id, tier)
    {
      if id in repos {
        repos := repos[id := repos[id].(tier := tier)];
      }
    }

    method CheckPromotionEligibility(id: RepoId, target: Tier, info: RepoInfo, current: Tier, env: Env)
      returns (verdict: Verdict)
      modifies this`transitions, this`results, checker
      ensures (Current(), verdict) == Judge(old(Current()), id, target, info, current, env)
      ensures VerdictLaw(target, info, current, env, verdict)
      ensures JudgeEffect(old(transitions), transitions, id, target, info, current, env, verdict)
    {
      VerdictsAreLawful(Current(), id, target, info, current, env);
      JudgingLeaves(Current(), id, target, info, current, env);
      if current == target {
        return Blocked(AlreadyAtTier);
      }
      if target !in Promotions(current) {
        return Blocked(InvalidCurrentTier);
      }
      if env.activeWorkflows {
        return Blocked(ActiveWorkflows);
      }
      if target == Execute {
        var result := checker.CheckCompliance(info, env.platform, true, true);
        if result.None? {
          return CheckerRaised;
        }
        var resultId := |results|;
        results := results + [result.value];
        if !result.value.overallPassed {
          transitions := transitions + [Transition(id, current, target, ELIGIBILITY_CHECK, Some(result.value.score),
                                                   Some(resultId), FailedChecks(result.value.checks))];
          return Blocked(ComplianceFailed);
        }
        return Eligible(Some(result.value.score), Some(resultId));
      }
      verdict := Eligible(None, None);
    }

    method PromoteRepo(id: RepoId, target: Tier, actor: string, env: Env) returns (r: Response)
      modifies this, checker
      ensures Current() == Handle(old(Current()), Promote(id, target, actor, env))
      ensures r.NotFound? <==> id !in old(repos)
      ensures id in old(repos) ==>
                var repo := old(repos)[id];
                && (r == Done(true, repo.tier, target) <==>
                      && Rank(target) == Rank(repo.tier) + 1 && !env.activeWorkflows
                      && (target == Execute ==> GateOpens(repo.info, env.platform)))
                && (r == Failed <==>
                      && Rank(target) == Rank(repo.tier) + 1 && !env.activeWorkflows
                      && target == Execute && CheckRaises(repo.info))
                && (r == Done(true, repo.tier, target) || r == Failed || r == Done(false, repo.tier, target))
      ensures !(r.Done? && r.success) ==> repos == old(repos)
      ensures r.Done? && r.success ==>
                && id in old(repos) && repos == old(repos)[id := old(repos)[id].(tier := target)]
                && |transitions| == |old(transitions)| + 1 && transitions[..|old(transitions)|] == old(transitions)
                && IsMove(transitions[|old(transitions)|], id, old(repos)[id].tier, target, actor)
    {
      if id !in repos {
        return NotFound;
      }
      var repo := repos[id];
      var verdict := CheckPromotionEligibility(id, target, repo.info, repo.tier, env);
      if verdict.CheckerRaised? {
        return Failed;
      }
      if verdict.Blocked? {
        return Done(false, repo.tier, target);
      }
      UpdateRepoTier(id, target);
      transitions := transitions + [Transition(id, repo.tier, target, actor, verdict.score, verdict.resultId, [])];
      r := Done(true, repo.tier, target);
    }

    method DemoteRepo(id: RepoId, target: Tier, actor: string) returns (r: Response)
      modifies this
      ensures Current() == Handle(old(Current()), Demote(id, target, actor))
      ensures r.NotFound? <==> id !in old(repos)
      ensures id in old(repos) ==>
                r == Done(Rank(target) < Rank(old(repos)[id].tier), old(repos)[id].tier, target)
      ensures !(r.Done? && r.success) ==> Current() == old(Current())
      ensures r.Done? && r.success ==>
                && id in old(repos) && repos == old(repos)[id := old(repos)[id].(tier := target)]
                && |transitions| == |old(transitions)| + 1 && transitions[..|old(transitions)|] == old(transitions)
                && IsMove(transitions[|old(transitions)|], id, old(repos)[id].tier, target, actor)
    {
      if id !in repos {
        return NotFound;
      }
      var current := repos[id].tier;
      if target !in Demotions(current) {
        return Done(false, current, target);
      }
      UpdateRepoTier(id, target);
      transitions := transitions + [Transition(id, current, target, actor, None, None, [])];
      r := Done(true, current, target);
    }

    method CheckEligibility(id: RepoId, target: Tier, env: Env) returns (r: Response)
      modifies this`transitions, this`results, checker
      ensures Current() == Handle(old(Current()), AskEligibility(id, target, env))
      ensures r.NotFound? <==> id !in repos
      ensures id in repos ==>
                VerdictLaw(target, repos[id].info, repos[id].tier, env,
                           if r.Answered? then r.verdict else CheckerRaised)
    {
      if id !in repos {
        return NotFound;
      }
      var verdict := CheckPromotionEligibility(id, target, repos[id].info, repos[id].tier, env);
      r := if verdict.CheckerRaised? then Failed else Answered(verdict);
    }

    method RegisterRepo(id: RepoId, fullName: string, info: RepoInfo) returns (r: Response)
      modifies this`repos
      ensures Current() == Handle(old(Current()), Register(id, fullName, info))
      ensures r == if exists other :: other in old(repos) && old(repos)[other].fullName == fullName
                   then Conflict else Registered
      ensures repos == if r == Registered then old(repos)[id := Repo(fullName, info, Observe)] else old(repos)
    {
      if exists other :: other in repos && repos[other].fullName == fullName {
        return Conflict;
      }
      repos := repos[id := Repo(fullName, info, Observe)];
      r := Registered;
    }

    method DeleteRepo(id: RepoId) returns (r: Response)
      modifies this`repos
      ensures Current() == Handle(old(Current()), Delete(id))
      ensures r.NotFound? <==> id !in old(repos)
      ensures repos == old(repos) - {id}
    {
      if id !in repos {
        assert repos - {id} == repos;
        return NotFound;
      }
      repos := repos - {id};
      r := Done(true, Observe, Observe);
    }
  }

  // ----- Whole runs --------------------------------------------------------------------

  function Run(requests: seq<Request>): State {
    if requests == [] then START else Handle(Run(requests[..|requests| - 1]), requests[|requests| - 1])
  }

  /** Registration ids are fresh: no earlier registration used them. */
  predicate FreshIds(requests: seq<Request>) {
    forall i, j :: 0 <= i < j < |requests| && requests[i].Register? && requests[j].Register? ==>
      requests[i].id != requests[j].id
  }

  predicate RegisteredIn(requests: seq<Request>, id: RepoId) {
    exists i :: 0 <= i < |requests| && requests[i].Register? && requests[i].id == id
  }

  /** The log records of a repository that carry no remediation items, in order. */
  function Moves(log: seq<Transition>, id: RepoId): seq<Transition> {
    if log == [] then []
    else
      var last := log[|log| - 1];
      Moves(log[..|log| - 1], id) + (if last.repo == id && last.remediation == [] then [last] else [])
  }

  /** The records form a connected chain of legal edges from OBSERVE to a tier. */
  predicate LeadsTo(moves: seq<Transition>, tier: Tier) {
    if moves == [] then tier == Observe
    else
      var last := moves[|moves| - 1];
      last.to == tier && Legal(last.from, last.to) && LeadsTo(moves[..|moves| - 1], last.from)
  }

  /** The record of a promotion attempt that the compliance gate turned down. */
  predicate IsBlockedAttempt(s: State, t: Transition) {
    && t.resultId.Some? && t.resultId.value < |s.results|
    && !s.results[t.resultId.value].overallPassed
  }

  predicate NineChecksPassed(r: ComplianceResult) {
    && r.overallPassed && r.score == 100.0 && |r.checks| == 9
    && (forall i :: 0 <= i < 9 ==> r.checks[i].passed)
    && (forall i, j :: 0 <= i < j < 9 ==> r.checks[i].check != r.checks[j].check)
  }

  /** What every record of the log satisfies. */
  predicate Sound(s: State, t: Transition) {
    && (t.remediation != [] <==> IsBlockedAttempt(s, t))
    && (t.remediation != [] ==> t.remediation == FailedChecks(s.results[t.resultId.value].checks))
    && Legal(t.from, t.to)
    && (t.to == Execute && t.remediation == [] ==>
          && t.resultId.Some? && t.resultId.value < |s.results|
          && NineChecksPassed(s.results[t.resultId.value]) && t.score == Some(100.0))
  }

  lemma MovesSnoc(log: seq<Transition>, t: Transition, id: RepoId)
    ensures Moves(log + [t], id) == if t.repo == id && t.remediation == [] then Moves(log, id) + [t] else Moves(log, id)
  {
    assert (log + [t])[..|log|] == log;
  }

  lemma LeadsSnoc(moves: seq<Transition>, t: Transition)
    requires LeadsTo(moves, t.from) && Legal(t.from, t.to)
    ensures LeadsTo(moves + [t], t.to)
  {
    assert (moves + [t])[..|moves|] == moves;
  }

  /** The chain of a repository's moves reaches its stored tier; one that was never
      registered has none. */
  ghost predicate ChainHolds(s: State, id: RepoId) {
    id in s.repos ==> LeadsTo(Moves(s.log, id), s.repos[id].tier)
  }

  /** Judging appends at most one record, and that one is blocked. */
  lemma JudgeLogsBlocked(s: State, id: RepoId, target: Tier, info: RepoInfo, current: Tier, env: Env)
    ensures var (j, v) := Judge(s, id, target, info, current, env);
      || j.log == s.log
      || (|j.log| == |s.log| + 1 && j.log == s.log + [j.log[|s.log|]] && j.log[|s.log|].remediation != [])
  {}

  lemma JudgeKeepsChain(s: State, id: RepoId, target: Tier, info: RepoInfo, current: Tier, env: Env, other: RepoId)
    ensures var (j, v) := Judge(s, id, target, info, current, env);
      && j.repos == s.repos && Moves(j.log, other) == Moves(s.log, other)
      && (v.Eligible? ==> target in Promotions(current))
  {
    var (j, v) := Judge(s, id, target, info, current, env);
    if |j.log| > |s.log| {
      JudgeLogsBlocked(s, id, target, info, current, env);
      MovesSnoc(s.log, j.log[|s.log|], other);
    }
  }

  lemma MovedKeepsChain(s: State, t: Transition, id: RepoId)
    requires ChainHolds(s, id)
    requires t.repo in s.repos && s.repos[t.repo].tier == t.from && Legal(t.from, t.to) && t.remediation == []
    ensures ChainHolds(Moved(s, t), id)
  {
    MovesSnoc(s.log, t, id);
    if t.repo == id {
      LeadsSnoc(Moves(s.log, id), t);
    }
  }

  lemma HandleKeepsChain(s: State, r: Request, id: RepoId)
    requires ChainHolds(s, id)
    requires r.Register? && r.id == id ==> Moves(s.log, id) == []
    ensures ChainHolds(Handle(s, r), id)
  {
    match r {
      case Register(_, _, _) =>
      case Promote(which, target, actor, env) =>
        if which in s.repos {
          var current := s.repos[which].tier;
          JudgeKeepsChain(s, which, target, s.repos[which].info, current, env, id);
          var (judged, v) := Judge(s, which, target, s.repos[which].info, current, env);
          if v.Eligible? {
            MovedKeepsChain(judged, Transition(which, current, target, actor, v.score, v.resultId, []), id);
          }
        }
      case Demote(which, target, actor) =>
        if which in s.repos && target in Demotions(s.repos[which].tier) {
          MovedKeepsChain(s, Transition(which, s.repos[which].tier, target, actor, None, None, []), id);
        }
      case AskEligibility(which, target, env) =>
        if which in s.repos {
          JudgeKeepsChain(s, which, target, s.repos[which].info, s.repos[which].tier, env, id);
        }
      case Delete(_) =>
    }
  }

  /** Only registered repositories have an entry or a move. */
  lemma {:induction false} UnregisteredIsAbsent(requests: seq<Request>, id: RepoId)
    requires !RegisteredIn(requests, id)
    ensures id !in Run(requests).repos && Moves(Run(requests).log, id) == []
  {
    if requests != [] {
      var init, r := requests[..|requests| - 1], requests[|requests| - 1];
      assert requests[|requests| - 1] == r;
      forall i | 0 <= i < |init|
        ensures !(init[i].Register? && init[i].id == id)
      {
        assert requests[i] == init[i];
      }
      UnregisteredIsAbsent(init, id);
      AbsentStays(Run(init), r, id);
    }
  }

  lemma AbsentStays(s: State, r: Request, id: RepoId)
    requires id !in s.repos && Moves(s.log, id) == []
    requires !(r.Register? && r.id == id)
    ensures id !in Handle(s, r).repos && Moves(Handle(s, r).log, id) == []
  {
    match r {
      case Register(_, _, _) =>
      case Promote(which, target, actor, env) =>
        if which in s.repos {
          var current := s.repos[which].tier;
          JudgeKeepsChain(s, which, target, s.repos[which].info, current, env, id);
          var (judged, v) := Judge(s, which, target, s.repos[which].info, current, env);
          if v.Eligible? {
            MovesSnoc(judged.log, Transition(which, current, target, actor, v.score, v.resultId, []), id);
          }
        }
      case Demote(which, target, actor) =>
        if which in s.repos && target in Demotions(s.repos[which].tier) {
          MovesSnoc(s.log, Transition(which, s.repos[which].tier, target, actor, None, None, []), id);
        }
      case AskEligibility(which, target, env) =>
        if which in s.repos {
          JudgeKeepsChain(s, which, target, s.repos[which].info, s.repos[which].tier, env, id);
        }
      case Delete(_) =>
    }
  }

  /** The audit law: over every run of requests, dropping the blocked records from the log
      of a repository leaves a connected chain of legal edges from OBSERVE to its stored tier. */
  lemma {:induction false} LogLeadsToTier(requests: seq<Request>, id: RepoId)
    requires FreshIds(requests)
    ensures var s := Run(requests);
      id in s.repos ==> LeadsTo(Moves(s.log, id), s.repos[id].tier)
  {
    if requests != [] {
      var init, r := requests[..|requests| - 1], requests[|requests| - 1];
      LogLeadsToTier(init, id);
      if r.Register? && r.id == id {
        forall i | 0 <= i < |init|
          ensures !(init[i].Register? && init[i].id == id)
        {
          assert requests[i] == init[i] && requests[|requests| - 1] == r;
        }
        UnregisteredIsAbsent(init, id);
      }
      HandleKeepsChain(Run(init), r, id);
    }
  }

  // ----- What the records say ----------------------------------------------------------

  lemma SoundGrows(s: State, t: Transition, more: seq<ComplianceResult>, repos: map<RepoId, Repo>, log: seq<Transition>)
    requires Sound(s, t) && (t.resultId.Some? ==> t.resultId.value < |s.results|)
    ensures Sound(State(repos, log, s.results + more), t)
  {}

  ghost predicate LogSound(s: State) {
    forall t :: t in s.log ==> Sound(s, t) && (t.resultId.Some? ==> t.resultId.value < |s.results|)
  }

  lemma JudgeSound(s: State, id: RepoId, target: Tier, info: RepoInfo, current: Tier, env: Env)
    requires LogSound(s)
    ensures var (j, v) := Judge(s, id, target, info, current, env);
      && LogSound(j)
      && (v.Eligible? ==>
            && target in Promotions(current) && (v.resultId.Some? ==> v.resultId.value < |j.results|)
            && (target == Execute ==> v.resultId.Some? && v.score == Some(100.0)
                                      && NineChecksPassed(j.results[v.resultId.value]))
            && (target != Execute ==> v.resultId == None))
  {
    var (j, v) := Judge(s, id, target, info, current, env);
    if |j.results| > |s.results| {
      var result := Evaluate(info, env.platform, true, true);
      assert j.results == s.results + [result];
      forall t | t in s.log
        ensures Sound(j, t) && (t.resultId.Some? ==> t.resultId.value < |j.results|)
      {
        SoundGrows(s, t, [result], j.repos, j.log);
      }
      PassedIsNine(info, env.platform);
    }
  }

  lemma PassedIsNine(info: RepoInfo, p: Platform)
    ensures var r := Evaluate(info, p, true, true); r.overallPassed ==> NineChecksPassed(r)
  {
    ScoreMeansPassed(info, p, true, true);
    PassedMeansNine(info, p);
    var r := Evaluate(info, p, true, true);
    if r.overallPassed {
      assert forall i :: 0 <= i < 9 ==> r.checks[i] in r.checks;
    }
  }

  lemma MovedSound(s: State, t: Transition)
    requires LogSound(s) && Sound(s, t) && (t.resultId.Some? ==> t.resultId.value < |s.results|)
    ensures LogSound(Moved(s, t))
  {
    var m := Moved(s, t);
    assert s.results + [] == s.results;
    forall u | u in m.log
      ensures Sound(m, u) && (u.resultId.Some? ==> u.resultId.value < |m.results|)
    {
      assert u in s.log || u == t;
      SoundGrows(s, u, [], m.repos, m.log);
    }
  }

  lemma HandleSound(s: State, r: Request)
    requires LogSound(s)
    ensures LogSound(Handle(s, r))
  {
    match r {
      case Register(_, _, _) => SameLogSound(s, Handle(s, r));
      case Promote(which, target, actor, env) =>
        if which in s.repos {
          var current := s.repos[which].tier;
          JudgeSound(s, which, target, s.repos[which].info, current, env);
          var (judged, v) := Judge(s, which, target, s.repos[which].info, current, env);
          if v.Eligible? {
            MovedSound(judged, Transition(which, current, target, actor, v.score, v.resultId, []));
          }
        }
      case Demote(which, target, actor) =>
        if which in s.repos && target in Demotions(s.repos[which].tier) {
          MovedSound(s, Transition(which, s.repos[which].tier, target, actor, None, None, []));
        }
      case AskEligibility(which, target, env) =>
        if which in s.repos {
          JudgeSound(s, which, target, s.repos[which].info, s.repos[which].tier, env);
        }
      case Delete(_) => SameLogSound(s, Handle(s, r));
    }
  }

  lemma SameLogSound(s: State, s': State)
    requires LogSound(s) && s'.log == s.log && s'.results == s.results
    ensures LogSound(s')
  {
    assert s.results + [] == s.results;
    forall t | t in s'.log
      ensures Sound(s', t) && (t.resultId.Some? ==> t.resultId.value < |s'.results|)
    {
      SoundGrows(s, t, [], s'.repos, s'.log);
    }
  }

  /** Over every run: a record has remediation items exactly when it is an attempt that the
      gate turned down, and they are the checks that failed; and every move into EXECUTE
      rests on a result with nine distinct checks, all passed, scoring 100. */
  lemma {:induction false} RecordsAreSound(requests: seq<Request>)
    ensures var s := Run(requests); forall t :: t in s.log ==> Sound(s, t)
    ensures LogSound(Run(requests))
  {
    if requests != [] {
      RecordsAreSound(requests[..|requests| - 1]);
      HandleSound(Run(requests[..|requests| - 1]), requests[|requests| - 1]);
    }
  }

  // ----- Repositories registered through the endpoint ----------------------------------

  /** The information that the registration endpoint stores: nothing about the repository. */
  const BARE_INFO := RepoInfo([], None, [], false, [])

  ghost predicate StaysBare(s: State, id: RepoId) {
    id in s.repos ==> s.repos[id].info == BARE_INFO && s.repos[id].tier != Execute
  }

  /** Such a repository can never be promoted to EXECUTE in memory: the gate judges the
      stored information, and that never changes. */
  lemma {:induction false} BareRepoNeverExecutes(requests: seq<Request>, id: RepoId)
    requires forall r :: r in requests && r.Register? && r.id == id ==> r.info == BARE_INFO
    ensures var s := Run(requests);
      id in s.repos ==> s.repos[id].info == BARE_INFO && s.repos[id].tier != Execute
  {
    if requests != [] {
      var init, r := requests[..|requests| - 1], requests[|requests| - 1];
      assert requests == init + [r];
      BareRepoNeverExecutes(init, id);
      HandleKeepsBare(Run(init), r, id);
    }
  }

  lemma HandleKeepsBare(s: State, r: Request, id: RepoId)
    requires StaysBare(s, id) && (r.Register? && r.id == id ==> r.info == BARE_INFO)
    ensures StaysBare(Handle(s, r), id)
  {
    match r {
      case Register(_, _, _) =>
      case Promote(which, target, actor, env) =>
        if which == id && id in s.repos {
          GateKeepsBare(s, id, target, s.repos[id].tier, env);
        }
      case Demote(_, _, _) =>
      case AskEligibility(_, _, _) =>
      case Delete(_) =>
    }
  }

  lemma GateKeepsBare(s: State, id: RepoId, target: Tier, current: Tier, env: Env)
    ensures var (j, v) := Judge(s, id, target, BARE_INFO, current, env);
      j.repos == s.repos && (v.Eligible? ==> target != Execute)
  {
    BareInfoFails(env.platform);
  }

  lemma BareInfoFails(p: Platform)
    ensures !Evaluate(BARE_INFO, p, true, true).overallPassed
  {
    ScoreMeansPassed(BARE_INFO, p, true, true);
    NineDistinctChecks();
    assert !Passes(RulesetsConfigured, BARE_INFO, p);
  }

  // ----- Moves and names ---------------------------------------------------------------

  /** A record without remediation items is a move by one rank up or any number down; one with them
      is a refused step from SUGGEST to EXECUTE. */
  predicate ClimbsOrDescends(t: Transition) {
    if t.remediation == [] then Rank(t.to) == Rank(t.from) + 1 || Rank(t.to) < Rank(t.from)
    else t.from == Suggest && t.to == Execute
  }

  lemma {:induction false} EveryRecordClimbsOrDescends(requests: seq<Request>)
    ensures forall t :: t in Run(requests).log ==> ClimbsOrDescends(t)
  {
    if requests != [] {
      var s, r := Run(requests[..|requests| - 1]), requests[|requests| - 1];
      EveryRecordClimbsOrDescends(requests[..|requests| - 1]);
      NewRecords(s, r);
    }
  }

  lemma NewRecords(s: State, r: Request)
    ensures forall t :: t in Handle(s, r).log && t !in s.log ==> ClimbsOrDescends(t)
  {
    match r {
      case Promote(id, target, actor, env) =>
        if id in s.repos {
          JudgedRecords(s, id, target, s.repos[id].info, s.repos[id].tier, env);
        }
      case AskEligibility(id, target, env) =>
        if id in s.repos {
          JudgedRecords(s, id, target, s.repos[id].info, s.repos[id].tier, env);
        }
      case Demote(id, target, _) =>
        if id in s.repos {
          TablesAreRanks(s.repos[id].tier, target);
        }
      case _ =>
    }
  }

  lemma JudgedRecords(s: State, id: RepoId, target: Tier, info: RepoInfo, current: Tier, env: Env)
    ensures var (j, v) := Judge(s, id, target, info, current, env);
      && (forall t :: t in j.log && t !in s.log ==> ClimbsOrDescends(t))
      && (v.Eligible? ==> Rank(target) == Rank(current) + 1)
  {
    VerdictsAreLawful(s, id, target, info, current, env);
    JudgingLeaves(s, id, target, info, current, env);
  }

  ghost predicate NamesDiffer(s: State) {
    forall a, b :: a in s.repos && b in s.repos && a != b ==> s.repos[a].fullName != s.repos[b].fullName
  }

  /** Over every run no two registered repositories have the same name. */
  lemma {:induction false} NamesStayDistinct(requests: seq<Request>)
    ensures NamesDiffer(Run(requests))
  {
    if requests != [] {
      NamesStayDistinct(requests[..|requests| - 1]);
      HandleKeepsNames(Run(requests[..|requests| - 1]), requests[|requests| - 1]);
    }
  }

  lemma HandleKeepsNames(s: State, r: Request)
    requires NamesDiffer(s)
    ensures NamesDiffer(Handle(s, r))
  {}
}
