/** The compliance checker: nine checks with their exits, tallied into a score. */
module ComplianceChecker {
  import opened Wrappers

  datatype Check =
    | RulesetsConfigured
    | RequiredReviewers
    | BranchProtection
    | LabelsExist
    | ProjectsV2
    | ExecutionPlaneHealth
    | PublisherIdempotency
    | CredentialsScoped
    | AdversarialContent
    | ExecuteTierPolicy

  /** What GitHub answers, as parsed: rulesets and branch protections may hold anything. */
  datatype Json =
    | JNull
    | JBool(b: bool)
    | JNumber(n: real)
    | JString(s: string)
    | JArray(items: seq<Json>)
    | JObject(fields: Object)

  type Object = map<string, Json>

  /** An absent branch protection is `None`. */
  datatype RepoInfo = RepoInfo(
    rulesets: seq<Object>, protection: Option<Object>, labels: seq<string>, codeownersExists: bool,
    codeownersPaths: seq<string>)

  datatype Probe = Healthy | Unhealthy | Raised

  datatype MergeMode = DraftOnly | RequireReview | AutoMerge

  /** Projects v2: what the settings and the client answer; an absent answer is an exception. */
  datatype Projects = Projects(
    hasClient: bool, enabled: bool, configured: bool, fields: Option<set<string>>, itemsListed: bool)

  /** Everything the checks ask that is not in the repository information. */
  datatype Platform = Platform(
    projectsWaived: bool, projects: Projects, plane: Probe, idempotency: Probe, credentials: Probe,
    mergeMode: MergeMode)

  const REQUIRED_FIELDS: set<string> := {"Status", "Automation Tier", "Risk Tier", "Priority", "Owner", "Repo"}

  const REQUIRED_LABELS := ["agent:in-progress", "agent:queued", "agent:done", "agent:blocked", "tier:execute"]

  const SENSITIVE_PATHS := ["auth/**", "billing/**", "exports/**", "infra/**"]

  const STATUS_CHECKS := JString("required_status_checks")
  const RULES := "rules"
  const TYPE := "type"
  const REVIEWS := "required_pull_request_reviews"
  const APPROVALS := "required_approving_review_count"

  datatype CheckResult = CheckResult(check: Check, passed: bool)

  datatype ComplianceResult = ComplianceResult(overallPassed: bool, score: real, checks: seq<CheckResult>)

  // ----- Reading what GitHub answered --------------------------------------------------

  /** Python's truth value. */
  predicate Truthy(j: Json) {
    match j
    case JNull => false
    case JBool(b) => b
    case JNumber(n) => n != 0.0
    case JString(s) => s != ""
    case JArray(items) => items != []
    case JObject(fields) => fields != map[]
  }

  predicate IsStatusCheck(rule: Json) {
    rule.JObject? && TYPE in rule.fields && rule.fields[TYPE] == STATUS_CHECKS
  }

  /** The scan of a rule list stops at the first status check; a rule before it that is no
      object makes it raise. */
  predicate ScanRaises(rules: seq<Json>) {
    exists k :: 0 <= k < |rules| && !rules[k].JObject? && forall i :: 0 <= i < k ==> !IsStatusCheck(rules[i])
  }

  predicate ScanFinds(rules: seq<Json>) {
    exists k :: 0 <= k < |rules| && IsStatusCheck(rules[k])
  }

  /** Only a list can be scanned: of anything else that is not empty, the elements are no
      objects, or there are none to iterate over. */
  predicate RulesetRaises(rs: Object) {
    RULES in rs && Truthy(rs[RULES]) && (rs[RULES].JArray? ==> ScanRaises(rs[RULES].items))
  }

  predicate HasStatusChecks(rs: Object) {
    RULES in rs && rs[RULES].JArray? && ScanFinds(rs[RULES].items)
  }

  /** The review entry of a protection that is in force. */
  function ReviewEntry(info: RepoInfo): Option<Json> {
    if info.protection.Some? && REVIEWS in info.protection.value then Some(info.protection.value[REVIEWS]) else None
  }

  /** The comparison `count > 0`, for the values that Python compares with a number. */
  predicate Comparable(count: Json) {
    count.JNumber? || count.JBool?
  }

  predicate Positive(count: Json) {
    (count.JNumber? && count.n > 0.0) || count == JBool(true)
  }

  // ----- When a check raises -----------------------------------------------------------

  predicate RulesetsRaise(info: RepoInfo) {
    exists i :: 0 <= i < |info.rulesets| && RulesetRaises(info.rulesets[i])
  }

  /** Without CODEOWNERS the reviewer check needs an object, and a number in it if anything. */
  predicate ReviewersRaise(info: RepoInfo) {
    && !info.codeownersExists
    && match ReviewEntry(info)
       case None => false
       case Some(JObject(fields)) => APPROVALS in fields && !Comparable(fields[APPROVALS])
       case Some(_) => true
  }

  predicate ProtectionRaises(info: RepoInfo) {
    ReviewEntry(info).Some? && Truthy(ReviewEntry(info).value) && !ReviewEntry(info).value.JObject?
  }

  /** The checks that run before the others and have no exception handler. */
  predicate CheckRaises(info: RepoInfo) {
    RulesetsRaise(info) || ReviewersRaise(info) || ProtectionRaises(info)
  }

  // ----- What each check demands -------------------------------------------------------

  predicate CoversSensitivePaths(info: RepoInfo) {
    forall p :: p in SENSITIVE_PATHS ==> p in info.codeownersPaths
  }

  predicate ProjectsPass(p: Platform) {
    || p.projectsWaived
    || !p.projects.hasClient
    || !p.projects.enabled
    || (p.projects.configured && p.projects.fields.Some? && REQUIRED_FIELDS <= p.projects.fields.value
        && p.projects.itemsListed)
  }

  predicate ApprovalsRequired(info: RepoInfo) {
    && ReviewEntry(info).Some? && ReviewEntry(info).value.JObject?
    && APPROVALS in ReviewEntry(info).value.fields && Positive(ReviewEntry(info).value.fields[APPROVALS])
  }

  predicate Passes(check: Check, info: RepoInfo, p: Platform) {
    match check
    case RulesetsConfigured => exists i :: 0 <= i < |info.rulesets| && HasStatusChecks(info.rulesets[i])
    case RequiredReviewers => info.codeownersExists || ApprovalsRequired(info)
    case BranchProtection => ReviewEntry(info).Some? && Truthy(ReviewEntry(info).value)
    case LabelsExist => forall l :: l in REQUIRED_LABELS ==> l in info.labels
    case ProjectsV2 => ProjectsPass(p)
    case ExecutionPlaneHealth => p.plane == Healthy
    case PublisherIdempotency => p.idempotency == Healthy
    case CredentialsScoped => p.credentials == Healthy
    case AdversarialContent => false // no run asks: the scan of a text is a call of its own
    case ExecuteTierPolicy => p.mergeMode == AutoMerge && info.codeownersExists && CoversSensitivePaths(info)
  }

  const PLATFORM_CHECKS := [ExecutionPlaneHealth, PublisherIdempotency, CredentialsScoped]

  /** The checks that a run makes, in order. */
  function Checklist(checkPlane: bool, executeTier: bool): seq<Check> {
    [RulesetsConfigured, RequiredReviewers, BranchProtection, LabelsExist, ProjectsV2]
    + (if checkPlane then PLATFORM_CHECKS else [])
    + (if executeTier then [ExecuteTierPolicy] else [])
  }

  function Results(checks: seq<Check>, info: RepoInfo, p: Platform): (r: seq<CheckResult>)
    ensures |r| == |checks|
    ensures forall i :: 0 <= i < |checks| ==> r[i] == CheckResult(checks[i], Passes(checks[i], info, p))
  {
    seq(|checks|, i requires 0 <= i < |checks| => CheckResult(checks[i], Passes(checks[i], info, p)))
  }

  function CountPassed(rs: seq<CheckResult>): (n: nat)
    ensures n <= |rs|
    ensures n == |rs| <==> forall r :: r in rs ==> r.passed
  {
    if rs == [] then 0
    else
      assert rs == rs[..|rs| - 1] + [rs[|rs| - 1]];
      CountPassed(rs[..|rs| - 1]) + (if rs[|rs| - 1].passed then 1 else 0)
  }

  function Score(passed: nat, total: nat): real {
    if total > 0 then passed as real / total as real * 100.0 else 0.0
  }

  predicate AllPassed(rs: seq<CheckResult>) {
    forall r :: r in rs ==> r.passed
  }

  function Evaluate(info: RepoInfo, p: Platform, checkPlane: bool, executeTier: bool): ComplianceResult {
    var rs := Results(Checklist(checkPlane, executeTier), info, p);
    ComplianceResult(AllPassed(rs), Score(CountPassed(rs), |rs|), rs)
  }

  // ----- The checker -------------------------------------------------------------------

  /** `any(r.get("type") == ... for r in rules)` over the rules of one ruleset. */
  method ScanRuleset(rs: Object) returns (raised: bool, found: bool)
    ensures raised == RulesetRaises(rs)
    ensures !raised ==> found == HasStatusChecks(rs)
  {
    raised, found := false, false;
    if RULES !in rs || !Truthy(rs[RULES]) {
      return;
    }
    if !rs[RULES].JArray? {
      return true, false;
    }
    var rules := rs[RULES].items;
    for i := 0 to |rules|
      invariant forall k :: 0 <= k < i ==> rules[k].JObject? && !IsStatusCheck(rules[k])
    {
      if !rules[i].JObject? {
        return true, false;
      }
      if IsStatusCheck(rules[i]) {
        return false, true;
      }
    }
  }

  class Checker {
    var checkResults: seq<CheckResult>

    constructor ()
      ensures checkResults == []
    {
      checkResults := [];
    }

    method AddPass(check: Check)
      modifies this
      ensures checkResults == old(checkResults) + [CheckResult(check, true)]
    {
      checkResults := checkResults + [CheckResult(check, true)];
    }

    method AddFailure(check: Check)
      modifies this
      ensures checkResults == old(checkResults) + [CheckResult(check, false)]
    {
      checkResults := checkResults + [CheckResult(check, false)];
    }

    /** Returns true when the check raises, in which case nothing is recorded. */
    method CheckRulesets(info: RepoInfo, ghost p: Platform) returns (raised: bool)
      modifies this
      ensures raised == RulesetsRaise(info)
      ensures checkResults == if raised then old(checkResults) else
                old(checkResults) + [CheckResult(RulesetsConfigured, Passes(RulesetsConfigured, info, p))]
    {
      raised := false;
      if info.rulesets == [] {
        AddFailure(RulesetsConfigured);
        return;
      }
      var withChecks: seq<Object> := [];
      for i := 0 to |info.rulesets|
        invariant checkResults == old(checkResults) && !raised
        invariant forall j :: 0 <= j < i ==> !RulesetRaises(info.rulesets[j])
        invariant withChecks == [] <==> forall j :: 0 <= j < i ==> !HasStatusChecks(info.rulesets[j])
      {
        var found;
        raised, found := ScanRuleset(info.rulesets[i]);
        if raised {
          return;
        }
        if found {
          withChecks := withChecks + [info.rulesets[i]];
        }
      }
      if withChecks == [] {
        AddFailure(RulesetsConfigured);
        return;
      }
      AddPass(RulesetsConfigured);
    }

    /** Returns true when the check raises, in which case nothing is recorded. */
    method CheckRequiredReviewers(info: RepoInfo, ghost p: Platform) returns (raised: bool)
      modifies this
      ensures raised == ReviewersRaise(info)
      ensures checkResults == if raised then old(checkResults) else
                old(checkResults) + [CheckResult(RequiredReviewers, Passes(RequiredReviewers, info, p))]
    {
      raised := false;
      if !info.codeownersExists {
        if info.protection.Some? && info.protection.value != map[] {
          var reviews := if REVIEWS in info.protection.value then info.protection.value[REVIEWS] else JObject(map[]);
          if !reviews.JObject? {
            return true;
          }
          var count := if APPROVALS in reviews.fields then reviews.fields[APPROVALS] else JNumber(0.0);
          if !Comparable(count) {
            return true;
          }
          if Positive(count) {
            AddPass(RequiredReviewers);
            return;
          }
        }
        AddFailure(RequiredReviewers);
        return;
      }
      // Uncovered sensitive paths are reported in the details, but the check passes either way.
      AddPass(RequiredReviewers);
    }

    /** Returns true when the check raises, in which case nothing is recorded. */
    method CheckBranchProtection(info: RepoInfo, ghost p: Platform) returns (raised: bool)
      modifies this
      ensures raised == ProtectionRaises(info)
      ensures checkResults == if raised then old(checkResults) else
                old(checkResults) + [CheckResult(BranchProtection, Passes(BranchProtection, info, p))]
    {
      raised := false;
      if info.protection.None? || info.protection.value == map[] {
        AddFailure(BranchProtection);
        return;
      }
      var reviews := if REVIEWS in info.protection.value then info.protection.value[REVIEWS] else JNull;
      if !Truthy(reviews) {
        AddFailure(BranchProtection);
        return;
      }
      if !reviews.JObject? {
        return true;
      }
      AddPass(BranchProtection);
    }

    method CheckLabels(info: RepoInfo, ghost p: Platform)
      modifies this
      ensures checkResults == old(checkResults) + [CheckResult(LabelsExist, Passes(LabelsExist, info, p))]
    {
      var missing := (set l | l in REQUIRED_LABELS) - (set l | l in info.labels);
      if missing != {} {
        var l :| l in missing;
        assert l in REQUIRED_LABELS && l !in info.labels;
        AddFailure(LabelsExist);
        return;
      }
      assert forall l :: l in REQUIRED_LABELS && l !in info.labels ==> l in missing;
      AddPass(LabelsExist);
    }

    method CheckProjectsV2(p: Platform, ghost info: RepoInfo)
      modifies this
      ensures checkResults == old(checkResults) + [CheckResult(ProjectsV2, Passes(ProjectsV2, info, p))]
    {
      if p.projectsWaived || !p.projects.hasClient || !p.projects.enabled {
        AddPass(ProjectsV2);
        return;
      }
      if !p.projects.configured {
        AddFailure(ProjectsV2);
        return;
      }
      if p.projects.fields.None? {
        AddFailure(ProjectsV2);
        return;
      }
      var missing := REQUIRED_FIELDS - p.projects.fields.value;
      if missing != {} {
        var f :| f in missing;
        assert !(REQUIRED_FIELDS <= p.projects.fields.value);
        AddFailure(ProjectsV2);
        return;
      }
      assert forall f :: f in REQUIRED_FIELDS && f !in p.projects.fields.value ==> f in missing;
      if !p.projects.itemsListed {
        AddFailure(ProjectsV2);
        return;
      }
      AddPass(ProjectsV2);
    }

    /** The three platform checks share one shape: healthy, unhealthy, or an exception. */
    method CheckProbe(check: Check, probe: Probe)
      modifies this
      ensures checkResults == old(checkResults) + [CheckResult(check, probe == Healthy)]
    {
      match probe {
        case Healthy => AddPass(check);
        case Unhealthy => AddFailure(check);
        case Raised => AddFailure(check);
      }
    }

    method CheckExecuteTierPolicy(info: RepoInfo, p: Platform)
      modifies this
      ensures checkResults == old(checkResults) + [CheckResult(ExecuteTierPolicy, Passes(ExecuteTierPolicy, info, p))]
    {
      var failures := 0;
      if p.mergeMode != AutoMerge {
        failures := failures + 1;
      }
      if info.codeownersExists {
        var uncovered := (set q | q in SENSITIVE_PATHS && q !in info.codeownersPaths);
        if uncovered != {} {
          var q :| q in uncovered;
          assert q in SENSITIVE_PATHS && q !in info.codeownersPaths;
          failures := failures + 1;
        } else {
          assert forall q :: q in SENSITIVE_PATHS && q !in info.codeownersPaths ==> q in uncovered;
        }
      } else {
        failures := failures + 1;
      }
      if failures > 0 {
        AddFailure(ExecuteTierPolicy);
      } else {
        AddPass(ExecuteTierPolicy);
      }
    }

    /** Runs every check of the checklist once, in order, and tallies them; there is no result
        exactly when one of the three checks without an exception handler raises. */
    method CheckCompliance(info: RepoInfo, p: Platform, checkPlane: bool, executeTier: bool)
      returns (result: Option<ComplianceResult>)
      modifies this
      ensures result == if CheckRaises(info) then None else Some(Evaluate(info, p, checkPlane, executeTier))
    {
      checkResults := [];
      var raised := RunChecks(info, p, checkPlane, executeTier);
      if raised {
        return None;
      }
      var passed, total := CountPassed(checkResults), |checkResults|;
      var score := if total > 0 then passed as real / total as real * 100.0 else 0.0;
      result := Some(ComplianceResult(AllPassed(checkResults), score, checkResults));
    }

    method RunChecks(info: RepoInfo, p: Platform, checkPlane: bool, executeTier: bool) returns (raised: bool)
      requires checkResults == []
      modifies this
      ensures raised == CheckRaises(info)
      ensures !raised ==> checkResults == Results(Checklist(checkPlane, executeTier), info, p)
    {
      raised := CheckGitHubSide(info, p);
      if raised {
        return;
      }
      ChecklistParts(checkPlane);
      if checkPlane {
        CheckPlatformSide(p, info);
        ResultsConcat(Checklist(false, false), PLATFORM_CHECKS, info, p);
      }
      if executeTier {
        CheckExecuteTierPolicy(info, p);
        ResultsSnoc(Checklist(checkPlane, false), ExecuteTierPolicy, info, p);
      }
    }

    method CheckPlatformSide(p: Platform, ghost info: RepoInfo)
      modifies this
      ensures checkResults == old(checkResults) + Results(PLATFORM_CHECKS, info, p)
    {
      CheckProbe(ExecutionPlaneHealth, p.plane);
      CheckProbe(PublisherIdempotency, p.idempotency);
      CheckProbe(CredentialsScoped, p.credentials);
    }

    method CheckGitHubSide(info: RepoInfo, p: Platform) returns (raised: bool)
      requires checkResults == []
      modifies this
      ensures raised == CheckRaises(info)
      ensures !raised ==> checkResults == Results(Checklist(false, false), info, p)
    {
      raised := CheckRulesets(info, p);
      if !raised {
        raised := CheckRequiredReviewers(info, p);
      }
      if !raised {
        raised := CheckBranchProtection(info, p);
      }
      if !raised {
        CheckLabels(info, p);
        CheckProjectsV2(p, info);
      }
    }
  }

  lemma ResultsSnoc(a: seq<Check>, c: Check, info: RepoInfo, p: Platform)
    ensures Results(a + [c], info, p) == Results(a, info, p) + [CheckResult(c, Passes(c, info, p))]
  {}

  lemma ChecklistParts(checkPlane: bool)
    ensures Checklist(true, false) == Checklist(false, false) + PLATFORM_CHECKS
    ensures Checklist(checkPlane, true) == Checklist(checkPlane, false) + [ExecuteTierPolicy]
  {}

  lemma ResultsConcat(a: seq<Check>, b: seq<Check>, info: RepoInfo, p: Platform)
    ensures Results(a + b, info, p) == Results(a, info, p) + Results(b, info, p)
  {}

  // ----- What a result means -----------------------------------------------------------

  lemma ScoreRange(passed: nat, total: nat)
    requires passed <= total && total > 0
    ensures 0.0 <= Score(passed, total) <= 100.0
    ensures Score(passed, total) == 100.0 <==> passed == total
  {
    var q := passed as real / total as real;
    assert q * total as real == passed as real;
    if passed < total {
      Distribute(q, total as real);
      PositiveFactor(1.0 - q, total as real);
    } else {
      SelfQuotient(total as real);
    }
  }

  lemma SelfQuotient(t: real)
    requires t > 0.0
    ensures t / t == 1.0
  {}

  lemma Distribute(q: real, t: real)
    ensures (1.0 - q) * t == t - q * t
  {}

  lemma PositiveFactor(a: real, b: real)
    requires a * b > 0.0 && b > 0.0
    ensures a > 0.0
  {}

  /** The score lies between 0 and 100 and is 100 exactly when every demand of the
      checklist is met, which is what the overall result says. */
  lemma ScoreMeansPassed(info: RepoInfo, p: Platform, checkPlane: bool, executeTier: bool)
    ensures var r := Evaluate(info, p, checkPlane, executeTier);
      && 0.0 <= r.score <= 100.0
      && (r.score == 100.0 <==> r.overallPassed)
      && (r.overallPassed <==> forall c :: c in Checklist(checkPlane, executeTier) ==> Passes(c, info, p))
  {
    var checks := Checklist(checkPlane, executeTier);
    var rs := Results(checks, info, p);
    ScoreRange(CountPassed(rs), |rs|);
    if AllPassed(rs) {
      forall c | c in checks
        ensures Passes(c, info, p)
      {
        var i :| 0 <= i < |checks| && checks[i] == c;
        assert rs[i] in rs;
      }
    }
  }

  /** For the execute tier the checklist has nine distinct checks: every check there is but the
      scan of a text for adversarial content. */
  lemma NineDistinctChecks()
    ensures |Checklist(true, true)| == 9
    ensures forall i, j :: 0 <= i < j < 9 ==> Checklist(true, true)[i] != Checklist(true, true)[j]
    ensures forall c: Check :: c in Checklist(true, true) <==> c != AdversarialContent
  {
    var cs := Checklist(true, true);
    assert cs[0] == RulesetsConfigured && cs[1] == RequiredReviewers && cs[2] == BranchProtection;
    assert cs[3] == LabelsExist && cs[4] == ProjectsV2 && cs[5] == ExecutionPlaneHealth;
    assert cs[6] == PublisherIdempotency && cs[7] == CredentialsScoped && cs[8] == ExecuteTierPolicy;
    forall c: Check
      ensures c in cs <==> c != AdversarialContent
    {
      match c {
        case RulesetsConfigured =>
        case RequiredReviewers =>
        case BranchProtection =>
        case LabelsExist =>
        case ProjectsV2 =>
        case ExecutionPlaneHealth =>
        case PublisherIdempotency =>
        case CredentialsScoped =>
        case AdversarialContent =>
        case ExecuteTierPolicy =>
      }
    }
  }

  /** The execute-tier policy is the stricter reviewer rule: a repository that meets it
      passes the reviewer check, and the reviewer check does not raise. */
  lemma PolicyImpliesReviewers(info: RepoInfo, p: Platform)
    requires Passes(ExecuteTierPolicy, info, p)
    ensures Passes(RequiredReviewers, info, p) && !ReviewersRaise(info)
  {}

  /** A passing execute-tier result lists all nine checks, each once, each passed. */
  lemma PassedMeansNine(info: RepoInfo, p: Platform)
    ensures var r := Evaluate(info, p, true, true);
      r.overallPassed ==>
        && |r.checks| == 9
        && (forall c: Check :: c != AdversarialContent ==> CheckResult(c, true) in r.checks)
        && (forall i, j :: 0 <= i < j < 9 ==> r.checks[i].check != r.checks[j].check)
  {
    NineDistinctChecks();
    ScoreMeansPassed(info, p, true, true);
    var r := Evaluate(info, p, true, true);
    if r.overallPassed {
      forall c: Check | c != AdversarialContent
        ensures CheckResult(c, true) in r.checks
      {
        assert c in Checklist(true, true);
        var i :| 0 <= i < |Checklist(true, true)| && Checklist(true, true)[i] == c;
        assert r.checks[i] == CheckResult(c, Passes(c, info, p));
      }
    }
  }

  // ----- Answers that make a check raise -----------------------------------------------

  /** A repository whose branch protection holds just this review entry. */
  function WithReviews(entry: Json, codeowners: bool): RepoInfo {
    RepoInfo([], Some(map[REVIEWS := entry]), [], codeowners, [])
  }

  /** A null review setting, or one whose approval count is null, raises without CODEOWNERS,
      and neither does with it. */
  lemma NullRaises()
    ensures CheckRaises(WithReviews(JNull, false)) && !CheckRaises(WithReviews(JNull, true))
    ensures var count := JObject(map[APPROVALS := JNull]);
            CheckRaises(WithReviews(count, false)) && !CheckRaises(WithReviews(count, true))
  {
    var count := JObject(map[APPROVALS := JNull]);
    assert ReviewEntry(WithReviews(count, false)) == Some(count);
    assert ReviewEntry(WithReviews(JNull, false)) == Some(JNull);
  }

  /** A review setting that is no object raises with or without CODEOWNERS, unless it is empty
      or null. */
  lemma NonObjectRaises(entry: Json, codeowners: bool)
    requires !entry.JObject?
    ensures CheckRaises(WithReviews(entry, codeowners)) <==> Truthy(entry) || !codeowners
  {
    assert ReviewEntry(WithReviews(entry, codeowners)) == Some(entry);
  }

  /** A rule that is no object raises, unless a status check comes before it. */
  lemma RuleListRaises(rules: seq<Json>, codeowners: bool)
    ensures CheckRaises(RepoInfo([map[RULES := JArray(rules)]], None, [], codeowners, [])) <==> ScanRaises(rules)
  {
    var info := RepoInfo([map[RULES := JArray(rules)]], None, [], codeowners, []);
    assert RulesetRaises(info.rulesets[0]) <==> ScanRaises(rules);
  }

  /** A result that did not pass has a failed check to remedy. */
  function FailedChecks(rs: seq<CheckResult>): (failed: seq<Check>)
    ensures failed == [] <==> AllPassed(rs)
    ensures forall c :: c in failed <==> CheckResult(c, false) in rs
  {
    if rs == [] then []
    else
      var init, last := rs[..|rs| - 1], rs[|rs| - 1];
      assert rs == init + [last];
      FailedChecks(init) + (if last.passed then [] else [last.check])
  }

  // ----- The nine demands in full ------------------------------------------------------

  /** A rule that is an object of the type `required_status_checks`. */
  predicate NamesStatusChecks(rule: Json) {
    rule.JObject? && "type" in rule.fields && rule.fields["type"] == JString("required_status_checks")
  }

  /** What the repository has to show: a status-check rule in some ruleset, CODEOWNERS or a positive
      approval count, a review entry that is not empty, and all five labels. */
  lemma RepositoryDemands(info: RepoInfo, p: Platform)
    ensures Passes(RulesetsConfigured, info, p) <==>
            exists i, k :: 0 <= i < |info.rulesets| && "rules" in info.rulesets[i] && info.rulesets[i]["rules"].JArray?
                           && 0 <= k < |info.rulesets[i]["rules"].items|
                           && NamesStatusChecks(info.rulesets[i]["rules"].items[k])
    ensures Passes(LabelsExist, info, p) <==>
            && "agent:in-progress" in info.labels && "agent:queued" in info.labels && "agent:done" in info.labels
            && "agent:blocked" in info.labels && "tier:execute" in info.labels
  {
    if Passes(RulesetsConfigured, info, p) {
      var i :| 0 <= i < |info.rulesets| && HasStatusChecks(info.rulesets[i]);
      var k :| 0 <= k < |info.rulesets[i]["rules"].items| && IsStatusCheck(info.rulesets[i]["rules"].items[k]);
      assert NamesStatusChecks(info.rulesets[i]["rules"].items[k]);
    }
    if i, k :| 0 <= i < |info.rulesets| && "rules" in info.rulesets[i] && info.rulesets[i]["rules"].JArray?
               && 0 <= k < |info.rulesets[i]["rules"].items|
               && NamesStatusChecks(info.rulesets[i]["rules"].items[k]) {
      assert IsStatusCheck(info.rulesets[i]["rules"].items[k]);
      assert HasStatusChecks(info.rulesets[i]);
    }
    assert REQUIRED_LABELS[0] in REQUIRED_LABELS && REQUIRED_LABELS[1] in REQUIRED_LABELS;
    assert REQUIRED_LABELS[2] in REQUIRED_LABELS && REQUIRED_LABELS[3] in REQUIRED_LABELS;
    assert REQUIRED_LABELS[4] in REQUIRED_LABELS;
  }

  /** Python's empty values: everything else is true. */
  predicate IsEmpty(j: Json) {
    j == JNull || j == JBool(false) || j == JNumber(0.0) || j == JString("") || j == JArray([]) || j == JObject(map[])
  }

  predicate HasReviews(info: RepoInfo) {
    info.protection.Some? && "required_pull_request_reviews" in info.protection.value
  }

  function Reviews(info: RepoInfo): Json
    requires HasReviews(info)
  {
    info.protection.value["required_pull_request_reviews"]
  }

  /** Reviewers are CODEOWNERS or a positive approval count, or an approval setting of `true`; and a
      branch is protected by any review entry that is not empty. */
  lemma ReviewDemands(info: RepoInfo, p: Platform)
    ensures Passes(RequiredReviewers, info, p) <==>
            || info.codeownersExists
            || (&& HasReviews(info) && Reviews(info).JObject?
                && "required_approving_review_count" in Reviews(info).fields
                && var count := Reviews(info).fields["required_approving_review_count"];
                   count == JBool(true) || (count.JNumber? && count.n > 0.0))
    ensures Passes(BranchProtection, info, p) <==> HasReviews(info) && !IsEmpty(Reviews(info))
  {}

  /** What the platform has to show: projects configured with all six fields unless waived or switched
      off, three healthy probes, and for EXECUTE automatic merging with CODEOWNERS over all four paths. */
  lemma PlatformDemands(info: RepoInfo, p: Platform)
    ensures Passes(ProjectsV2, info, p) <==>
            || p.projectsWaived || !p.projects.hasClient || !p.projects.enabled
            || (&& p.projects.configured && p.projects.itemsListed && p.projects.fields.Some?
                && var fields := p.projects.fields.value;
                   && "Status" in fields && "Automation Tier" in fields && "Risk Tier" in fields
                   && "Priority" in fields && "Owner" in fields && "Repo" in fields)
    ensures Passes(ExecutionPlaneHealth, info, p) <==> p.plane == Healthy
    ensures Passes(PublisherIdempotency, info, p) <==> p.idempotency == Healthy
    ensures Passes(CredentialsScoped, info, p) <==> p.credentials == Healthy
    ensures Passes(ExecuteTierPolicy, info, p) <==>
            && p.mergeMode == AutoMerge && info.codeownersExists
            && "auth/**" in info.codeownersPaths && "billing/**" in info.codeownersPaths
            && "exports/**" in info.codeownersPaths && "infra/**" in info.codeownersPaths
  {
    assert SENSITIVE_PATHS[0] in SENSITIVE_PATHS && SENSITIVE_PATHS[1] in SENSITIVE_PATHS;
    assert SENSITIVE_PATHS[2] in SENSITIVE_PATHS && SENSITIVE_PATHS[3] in SENSITIVE_PATHS;
  }

  /** A rule list raises iff some rule before the first status check is no object. */
  predicate RuleListStops(rules: Json) {
    if rules.JArray? then
      exists k :: 0 <= k < |rules.items| && !rules.items[k].JObject?
                  && forall i :: 0 <= i < k ==> !NamesStatusChecks(rules.items[i])
    else !IsEmpty(rules)
  }

  /** A run of the checks raises iff some ruleset's rules cannot be scanned, a review entry that is not
      empty is no object, or, without CODEOWNERS, a review entry is no object or its approval count no
      number. */
  lemma WhenChecksRaise(info: RepoInfo)
    ensures CheckRaises(info) <==>
      || (exists i :: 0 <= i < |info.rulesets| && "rules" in info.rulesets[i]
                      && RuleListStops(info.rulesets[i]["rules"]))
      || (HasReviews(info) && !Reviews(info).JObject? && (!info.codeownersExists || !IsEmpty(Reviews(info))))
      || (&& !info.codeownersExists && HasReviews(info) && Reviews(info).JObject?
          && "required_approving_review_count" in Reviews(info).fields
          && var count := Reviews(info).fields["required_approving_review_count"];
             !count.JNumber? && !count.JBool?)
  {
    forall i | 0 <= i < |info.rulesets|
      ensures RulesetRaises(info.rulesets[i])
              <==> "rules" in info.rulesets[i] && RuleListStops(info.rulesets[i]["rules"])
    {
      RulesetStops(info.rulesets[i]);
    }
  }

  lemma RulesetStops(rs: Object)
    ensures RulesetRaises(rs) <==> "rules" in rs && RuleListStops(rs["rules"])
  {
    if "rules" in rs && rs["rules"].JArray? {
      var rules := rs["rules"].items;
      assert forall i :: 0 <= i < |rules| ==> (IsStatusCheck(rules[i]) <==> NamesStatusChecks(rules[i]));
    }
  }

  /** Every check of a result passed or failed, and none did both. */
  lemma {:induction false} PassedAndFailed(rs: seq<CheckResult>)
    ensures CountPassed(rs) + |FailedChecks(rs)| == |rs|
  {
    if rs != [] {
      PassedAndFailed(rs[..|rs| - 1]);
    }
  }

  /** The score times the number of checks is a hundred times those that passed. */
  lemma ScoreTimes(passed: nat, total: nat)
    requires total > 0
    ensures Score(passed, total) * total as real == 100.0 * passed as real
  {
    var t := total as real;
    assert passed as real / t * t == passed as real;
  }
}
