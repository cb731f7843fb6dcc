/** The compliance scorecard: eight checks on a repo's compliance data, cached for an hour, and
    fetched from the data store and the plane registry when the caller brings no data. */
module Scorecard {
  import opened Wrappers
  import opened PlaneRegistry

  datatype CheckName =
    | BranchProtection
    | RequiredReviewers
    | StandardLabels
    | ProjectsV2
    | EvidenceFormat
    | IdempotencyGuard
    | ExecutionPlaneHealth
    | ExecuteTierPolicy

  datatype Check = Check(name: CheckName, passed: bool)

  datatype Scorecard = Scorecard(repoId: string, checks: seq<Check>, overallPass: bool, evaluatedAt: int)

  datatype ComplianceData = ComplianceData(
    branchProtectionEnabled: bool, requiredReviewersConfigured: bool, standardLabelsPresent: bool,
    projectsV2Configured: bool, evidenceFormatValid: bool, idempotencyGuardActive: bool,
    executionPlaneHealthy: bool, executeTierPolicyPassed: bool)

  const NO_DATA := ComplianceData(false, false, false, false, false, false, false, false)

  /** Which datum each check reports. */
  function Flag(data: ComplianceData, name: CheckName): bool {
    match name
    case BranchProtection => data.branchProtectionEnabled
    case RequiredReviewers => data.requiredReviewersConfigured
    case StandardLabels => data.standardLabelsPresent
    case ProjectsV2 => data.projectsV2Configured
    case EvidenceFormat => data.evidenceFormatValid
    case IdempotencyGuard => data.idempotencyGuardActive
    case ExecutionPlaneHealth => data.executionPlaneHealthy
    case ExecuteTierPolicy => data.executeTierPolicyPassed
  }

  /** Where a scorecard lists each check. */
  function Place(name: CheckName): (i: nat)
    ensures i < 8
  {
    match name
    case BranchProtection => 0
    case RequiredReviewers => 1
    case StandardLabels => 2
    case ProjectsV2 => 3
    case EvidenceFormat => 4
    case IdempotencyGuard => 5
    case ExecutionPlaneHealth => 6
    case ExecuteTierPolicy => 7
  }

  /** A scorecard that reports the data: each check at its place, and a pass iff all pass. */
  ghost predicate Reports(s: Scorecard, repo: string, data: ComplianceData) {
    && s.repoId == repo && |s.checks| == 8
    && (forall name: CheckName :: s.checks[Place(name)] == Check(name, Flag(data, name)))
    && (s.overallPass <==> forall name: CheckName :: Flag(data, name))
  }

  function ChecksOf(data: ComplianceData): seq<Check> {
    [Check(BranchProtection, data.branchProtectionEnabled),
     Check(RequiredReviewers, data.requiredReviewersConfigured),
     Check(StandardLabels, data.standardLabelsPresent),
     Check(ProjectsV2, data.projectsV2Configured),
     Check(EvidenceFormat, data.evidenceFormatValid),
     Check(IdempotencyGuard, data.idempotencyGuardActive),
     Check(ExecutionPlaneHealth, data.executionPlaneHealthy),
     Check(ExecuteTierPolicy, data.executeTierPolicyPassed)]
  }

  function AllPassed(checks: seq<Check>): bool {
    forall i | 0 <= i < |checks| :: checks[i].passed
  }

  function Scored(repo: string, data: ComplianceData, evaluatedAt: int): Scorecard {
    Scorecard(repo, ChecksOf(data), AllPassed(ChecksOf(data)), evaluatedAt)
  }

  lemma CheckAt(data: ComplianceData, name: CheckName)
    ensures |ChecksOf(data)| == 8 && ChecksOf(data)[Place(name)] == Check(name, Flag(data, name))
  {
    match name
    case BranchProtection =>
    case RequiredReviewers =>
    case StandardLabels =>
    case ProjectsV2 =>
    case EvidenceFormat =>
    case IdempotencyGuard =>
    case ExecutionPlaneHealth =>
    case ExecuteTierPolicy =>
  }

  lemma PlaceTaken(data: ComplianceData, i: nat)
    requires i < 8
    ensures |ChecksOf(data)| == 8 && Place(ChecksOf(data)[i].name) == i
  {}

  /** The computed scorecard reports the data. */
  lemma ScoredReports(repo: string, data: ComplianceData, evaluatedAt: int)
    ensures Reports(Scored(repo, data, evaluatedAt), repo, data)
  {
    var checks := ChecksOf(data);
    forall name: CheckName
      ensures |checks| == 8 && checks[Place(name)] == Check(name, Flag(data, name))
    {
      CheckAt(data, name);
    }
    forall i: nat | i < 8
      ensures checks[i].passed == Flag(data, checks[i].name)
    {
      PlaceTaken(data, i);
    }
    assert (forall name: CheckName :: Flag(data, name)) ==> AllPassed(checks);
    assert AllPassed(checks) ==> forall name: CheckName :: Flag(data, name) by {
      assert forall name: CheckName :: checks[Place(name)].passed == Flag(data, name);
    }
  }

  /** The flags that a repo's data hold, all but that of its plane. */
  predicate SevenSet(data: ComplianceData) {
    && data.branchProtectionEnabled && data.requiredReviewersConfigured && data.standardLabelsPresent
    && data.projectsV2Configured && data.evidenceFormatValid && data.idempotencyGuardActive
    && data.executeTierPolicyPassed
  }

  /** Every flag is reported under its own name, and the scorecard passes iff all eight are set. */
  lemma ScoredPlainly(repo: string, data: ComplianceData, evaluatedAt: int)
    ensures var s := Scored(repo, data, evaluatedAt);
      && |s.checks| == 8
      && s.checks[0] == Check(BranchProtection, data.branchProtectionEnabled)
      && s.checks[1] == Check(RequiredReviewers, data.requiredReviewersConfigured)
      && s.checks[2] == Check(StandardLabels, data.standardLabelsPresent)
      && s.checks[3] == Check(ProjectsV2, data.projectsV2Configured)
      && s.checks[4] == Check(EvidenceFormat, data.evidenceFormatValid)
      && s.checks[5] == Check(IdempotencyGuard, data.idempotencyGuardActive)
      && s.checks[6] == Check(ExecutionPlaneHealth, data.executionPlaneHealthy)
      && s.checks[7] == Check(ExecuteTierPolicy, data.executeTierPolicyPassed)
      && (s.overallPass <==> SevenSet(data) && data.executionPlaneHealthy)
  {
    var checks := ChecksOf(data);
    assert AllPassed(checks) ==> forall i :: 0 <= i < 8 ==> checks[i].passed;
  }

  method Score(repo: string, data: ComplianceData, evaluatedAt: int) returns (s: Scorecard)
    ensures Reports(s, repo, data) && s.evaluatedAt == evaluatedAt
    ensures s == Scored(repo, data, evaluatedAt)
    ensures s.overallPass <==> SevenSet(data) && data.executionPlaneHealthy
  {
    var checks := ChecksOf(data);
    var overall := forall i | 0 <= i < |checks| :: checks[i].passed;
    ScoredReports(repo, data, evaluatedAt);
    ScoredPlainly(repo, data, evaluatedAt);
    s := Scorecard(repo, checks, overall, evaluatedAt);
  }

  // ----- What has happened to the cache ------------------------------------------------

  /** Where the data of a scorecard came from: the caller, or a fetch that saw these stores. */
  datatype Origin = Given(data: ComplianceData) | Fetched(stored: Option<ComplianceData>, planes: View)

  datatype Event =
    | Computed(repo: string, scorecard: Scorecard, at: int, origin: Origin)
    | Invalidated(repo: string)

  /** The data a fetch ends with: the stored flags, and a plane health found in the registry,
      never in the store. */
  ghost function FetchedData(repo: string, stored: Option<ComplianceData>, planes: View): ComplianceData {
    (if stored.Some? then stored.value else NO_DATA).(executionPlaneHealthy := Served(planes, repo))
  }

  ghost function DataOf(repo: string, origin: Origin): ComplianceData {
    match origin
    case Given(data) => data
    case Fetched(stored, planes) => FetchedData(repo, stored, planes)
  }

  /** The scorecard reports the data it was computed from. */
  ghost predicate Honest(e: Event) {
    e.Computed? ==> Reports(e.scorecard, e.repo, DataOf(e.repo, e.origin))
  }

  type Cache = map<string, (Scorecard, int)>

  function Replay(history: seq<Event>): Cache {
    if history == [] then map[]
    else
      var cache := Replay(history[..|history| - 1]);
      match history[|history| - 1]
      case Computed(repo, s, at, _) => cache[repo := (s, at)]
      case Invalidated(repo) => cache - {repo}
  }

  /** Event `k` computed this scorecard, and nothing has touched the repo's entry since. */
  ghost predicate LatestAt(history: seq<Event>, repo: string, s: Scorecard, at: int, k: nat) {
    && k < |history| && history[k].Computed? && history[k].repo == repo
    && history[k].scorecard == s && history[k].at == at
    && forall l :: k < l < |history| ==> history[l].repo != repo
  }

  /** A cached entry is the latest scorecard computed for the repo, not invalidated since;
      and such a scorecard is always cached. */
  lemma {:induction false} CachedMeansLatest(history: seq<Event>, repo: string, s: Scorecard, at: int)
    ensures (repo in Replay(history) && Replay(history)[repo] == (s, at))
            <==> exists k: nat :: LatestAt(history, repo, s, at, k)
  {
    if history != [] {
      var init, e := history[..|history| - 1], history[|history| - 1];
      CachedMeansLatest(init, repo, s, at);
      forall k: nat | k < |init|
        ensures LatestAt(history, repo, s, at, k) <==> LatestAt(init, repo, s, at, k) && e.repo != repo
      {}
      if exists k: nat :: LatestAt(init, repo, s, at, k) {
        var k: nat :| LatestAt(init, repo, s, at, k);
        assert e.repo != repo ==> LatestAt(history, repo, s, at, k);
      }
      if e.Computed? && e == Computed(repo, s, at, e.origin) {
        assert LatestAt(history, repo, s, at, |init|);
      }
    }
  }

  /** What one more honest computation does to the history. */
  lemma TruthGrows(history: seq<Event>, e: Event)
    requires e.Computed? && Honest(e) && forall k :: 0 <= k < |history| ==> Honest(history[k])
    ensures var more := history + [e];
      && Replay(more) == Replay(history)[e.repo := (e.scorecard, e.at)]
      && (forall k :: 0 <= k < |more| ==> Honest(more[k]))
      && LatestAt(more, e.repo, e.scorecard, e.at, |history|)
  {
    assert (history + [e])[..|history|] == history;
  }

  /** A cached scorecard that came from a fetch says that its plane is healthy iff, when it was
      computed, some active plane held the repo; it passes only if that was so. */
  lemma PlaneHealthWasTrue(history: seq<Event>, repo: string, s: Scorecard, at: int, k: nat)
    requires LatestAt(history, repo, s, at, k) && Honest(history[k]) && history[k].origin.Fetched?
    ensures |s.checks| == 8
    ensures s.checks[Place(ExecutionPlaneHealth)] == Check(ExecutionPlaneHealth, Served(history[k].origin.planes, repo))
    ensures s.overallPass ==> Served(history[k].origin.planes, repo) && history[k].origin.stored.Some?
  {
    var data := DataOf(repo, history[k].origin);
    assert Flag(data, ExecutionPlaneHealth) == data.executionPlaneHealthy;
    assert Flag(data, BranchProtection) == data.branchProtectionEnabled;
  }

  const TTL_SECONDS := 3600

  /** The entry that a call without data may return: younger than the time to live. */
  predicate FreshAt(cache: Cache, repo: string, now: int) {
    repo in cache && now - cache[repo].1 < TTL_SECONDS
  }

  // ----- What each request does --------------------------------------------------------

  /** The plane registry, the data store and what has happened to the cache, together. */
  datatype Situation = Situation(planes: View, store: map<string, ComplianceData>, history: seq<Event>)

  datatype Request =
    | Plane(op: Op)
    | SetData(repo: string, data: ComplianceData)
    | Invalidate(repo: string)
    | Ask(repo: string, given: Option<ComplianceData>, now: int, evaluatedAt: int, cachedAt: int)

  /** Whether a request is answered from the cache. */
  predicate ServedFromCache(s: Situation, q: Request)
    requires q.Ask?
  {
    q.given.None? && FreshAt(Replay(s.history), q.repo, q.now)
  }

  function StoredData(store: map<string, ComplianceData>, repo: string): Option<ComplianceData> {
    if repo in store then Some(store[repo]) else None
  }

  /** The event of computing a scorecard now. */
  ghost function Computation(s: Situation, q: Request): Event
    requires q.Ask?
  {
    var origin := if q.given.Some? then Given(q.given.value) else Fetched(StoredData(s.store, q.repo), s.planes);
    Computed(q.repo, Scored(q.repo, DataOf(q.repo, origin), q.evaluatedAt), q.cachedAt, origin)
  }

  ghost function Answer(s: Situation, q: Request): Scorecard
    requires q.Ask?
  {
    if ServedFromCache(s, q) then Replay(s.history)[q.repo].0 else Computation(s, q).scorecard
  }

  ghost function Handle(s: Situation, q: Request): Situation {
    match q
    case Plane(op) => s.(planes := Apply(s.planes, op))
    case SetData(repo, data) => s.(store := s.store[repo := data])
    case Invalidate(repo) => s.(history := s.history + [Invalidated(repo)])
    case Ask(_, _, _, _, _) => if ServedFromCache(s, q) then s else s.(history := s.history + [Computation(s, q)])
  }

  // ----- The service -------------------------------------------------------------------

  class ComplianceScorecardService {
    const registry: ExecutionPlaneRegistry
    var store: map<string, ComplianceData>
    var cache: Cache
    ghost var history: seq<Event>

    constructor (registry: ExecutionPlaneRegistry)
      ensures this.registry == registry && store == map[] && cache == map[] && history == []
      ensures Truthful()
    {
      this.registry := registry;
      store, cache, history := map[], map[], [];
    }

    /** The cache is what the history left there, and every scorecard in it was honest. */
    ghost predicate Truthful()
      reads this
    {
      cache == Replay(history) && forall k :: 0 <= k < |history| ==> Honest(history[k])
    }

    method SetComplianceData(repo: string, data: ComplianceData)
      requires Truthful()
      modifies this`store
      ensures Truthful() && store == old(store)[repo := data]
    {
      store := store[repo := data];
    }

    function GetComplianceData(repo: string): Option<ComplianceData>
      reads this
    {
      StoredData(store, repo)
    }

    ghost function Current(): Situation
      reads this, registry, registry.planes.Values
    {
      Situation(registry.Meaning(), store, history)
    }

    method InvalidateCache(repo: string)
      requires Truthful()
      modifies this`cache, this`history
      ensures Truthful() && history == old(history) + [Invalidated(repo)]
      ensures cache == old(cache) - {repo}
    {
      cache := cache - {repo};
      history := history + [Invalidated(repo)];
    }

    /** Looks for an active plane that holds the repo and stops at the first one. */
    method FetchComplianceData(repo: string) returns (data: ComplianceData)
      requires registry.Valid()
      ensures data == FetchedData(repo, GetComplianceData(repo), registry.Meaning())
      ensures data.executionPlaneHealthy <==>
                exists id :: id in registry.planes && registry.planes[id].status == Active
                             && repo in registry.planes[id].repoIds
      ensures repo in store ==> data == store[repo].(executionPlaneHealthy := data.executionPlaneHealthy)
      ensures repo !in store ==>
                data == ComplianceData(false, false, false, false, false, false, data.executionPlaneHealthy, false)
    {
      var stored := GetComplianceData(repo);
      data := if stored.Some? then stored.value.(executionPlaneHealthy := false) else NO_DATA;
      var healthy := HasHealthyPlane(repo);
      if healthy {
        data := data.(executionPlaneHealthy := true);
      }
    }

    method HasHealthyPlane(repo: string) returns (found: bool)
      requires registry.Valid()
      ensures found == Served(registry.Meaning(), repo)
      ensures found <==>
                exists id :: id in registry.planes && registry.planes[id].status == Active
                             && repo in registry.planes[id].repoIds
    {
      var summaries := registry.GetHealthSummary();
      registry.ListPlanesFacts();
      ghost var listed := registry.ListPlanes();
      for i := 0 to |summaries|
        invariant forall k :: 0 <= k < i ==> !(listed[k].status == Active && repo in listed[k].repoIds)
      {
        if summaries[i].healthy {
          var plane := registry.planes[summaries[i].planeId];
          if repo in plane.repoIds {
            assert registry.Meaning()[plane.planeId].status == Active;
            assert plane.planeId in registry.planes && registry.planes[plane.planeId] == plane;
            return true;
          }
        }
      }
      NoneServes(repo);
      found := false;
    }

    lemma NoneServes(repo: string)
      requires registry.Valid()
      requires forall k :: 0 <= k < |registry.ListPlanes()| ==>
                 !(registry.ListPlanes()[k].status == Active && repo in registry.ListPlanes()[k].repoIds)
      ensures !Served(registry.Meaning(), repo)
      ensures forall id :: id in registry.planes && registry.planes[id].status == Active ==>
                             repo !in registry.planes[id].repoIds
    {
      registry.ListPlanesFacts();
      forall id | id in registry.planes
        ensures registry.planes[id].status == Active ==> repo !in registry.planes[id].repoIds
      {
        var k :| 0 <= k < |registry.ListPlanes()| && registry.ListPlanes()[k] == registry.planes[id];
      }
    }

    /** The clock is read up to three times: for the age, the scorecard and the cache entry. */
    method Evaluate(repo: string, given: Option<ComplianceData>, now: int, evaluatedAt: int, cachedAt: int)
      returns (s: Scorecard)
      requires Truthful() && registry.Valid()
      modifies this`cache, this`history
      ensures Truthful()
      ensures var q := Ask(repo, given, now, evaluatedAt, cachedAt);
              s == Answer(old(Current()), q) && Current() == Handle(old(Current()), q)
      ensures given.None? && repo in old(cache) && now - old(cache)[repo].1 < 3600 ==>
                && s == old(cache)[repo].0 && cache == old(cache) && history == old(history)
      ensures !(given.None? && repo in old(cache) && now - old(cache)[repo].1 < 3600) ==>
                && cache == old(cache)[repo := (s, cachedAt)] && s.evaluatedAt == evaluatedAt
                && history == old(history) + [Computed(repo, s, cachedAt,
                     if given.Some? then Given(given.value) else Fetched(GetComplianceData(repo), registry.Meaning()))]
      ensures given.None? ==>
                exists k: nat, at: int ::
                  LatestAt(history, repo, s, at, k) && (history == old(history) ==> now - at < TTL_SECONDS)
    {
      if given.None? && repo in cache {
        var (scorecard, at) := cache[repo];
        if now - at < TTL_SECONDS {
          CachedMeansLatest(history, repo, scorecard, at);
          return scorecard;
        }
      }
      s := Recompute(repo, given, evaluatedAt, cachedAt);
    }

    /** The part of an evaluation behind the cache. */
    method Recompute(repo: string, given: Option<ComplianceData>, evaluatedAt: int, cachedAt: int)
      returns (s: Scorecard)
      requires Truthful() && registry.Valid()
      modifies this`cache, this`history
      ensures Truthful()
      ensures cache == old(cache)[repo := (s, cachedAt)] && s.evaluatedAt == evaluatedAt
      ensures var origin := if given.Some? then Given(given.value)
                            else Fetched(GetComplianceData(repo), registry.Meaning());
              s == Scored(repo, DataOf(repo, origin), evaluatedAt)
              && history == old(history) + [Computed(repo, s, cachedAt, origin)]
      ensures LatestAt(history, repo, s, cachedAt, |history| - 1)
    {
      var data := GivenOrFetched(repo, given);
      s := Score(repo, data, evaluatedAt);
      ghost var origin := if given.Some? then Given(given.value)
                          else Fetched(GetComplianceData(repo), registry.Meaning());
      Remember(repo, s, cachedAt, origin);
    }

    method GivenOrFetched(repo: string, given: Option<ComplianceData>) returns (data: ComplianceData)
      requires registry.Valid()
      ensures data == DataOf(repo, if given.Some? then Given(given.value)
                                   else Fetched(GetComplianceData(repo), registry.Meaning()))
    {
      if given.Some? {
        data := given.value;
      } else {
        data := FetchComplianceData(repo);
      }
    }

    /** Puts an honest scorecard into the cache. */
    method Remember(repo: string, s: Scorecard, cachedAt: int, ghost origin: Origin)
      requires Truthful() && Reports(s, repo, DataOf(repo, origin))
      modifies this`cache, this`history
      ensures Truthful()
      ensures cache == old(cache)[repo := (s, cachedAt)]
      ensures history == old(history) + [Computed(repo, s, cachedAt, origin)]
      ensures LatestAt(history, repo, s, cachedAt, |history| - 1)
    {
      ghost var e := Computed(repo, s, cachedAt, origin);
      TruthGrows(history, e);
      cache := cache[repo := (s, cachedAt)];
      history := history + [e];
    }
  }

  // ----- Whole runs --------------------------------------------------------------------

  ghost function After(requests: seq<Request>): Situation {
    if requests == [] then Situation(map[], map[], [])
    else Handle(After(requests[..|requests| - 1]), requests[|requests| - 1])
  }

  /** The operations on the plane registry among the requests. */
  function PlaneOps(requests: seq<Request>): seq<Op> {
    if requests == [] then []
    else
      var before, q := PlaneOps(requests[..|requests| - 1]), requests[|requests| - 1];
      if q.Plane? then before + [q.op] else before
  }

  lemma HandlePlanes(s: Situation, q: Request)
    ensures Handle(s, q).planes == if q.Plane? then Apply(s.planes, q.op) else s.planes
  {}

  lemma {:induction false} PlanesAfter(requests: seq<Request>)
    ensures After(requests).planes == Run(PlaneOps(requests))
  {
    if requests != [] {
      var init, q := requests[..|requests| - 1], requests[|requests| - 1];
      PlanesAfter(init);
      HandlePlanes(After(init), q);
      if q.Plane? {
        RunSnoc(PlaneOps(init), q.op);
      }
    }
  }

  /** Request `j` computes a scorecard instead of returning a cached one. */
  ghost predicate Recomputes(requests: seq<Request>, j: nat) {
    j < |requests| && requests[j].Ask? && !ServedFromCache(After(requests[..j]), requests[j])
  }

  /** Request `l` replaces or removes the repo's cache entry. */
  ghost predicate Touches(requests: seq<Request>, l: nat, repo: string) {
    && l < |requests|
    && (requests[l] == Invalidate(repo) || (Recomputes(requests, l) && requests[l].repo == repo))
  }

  lemma AfterSnoc(requests: seq<Request>, j: nat)
    requires j < |requests|
    ensures After(requests[..j + 1]) == Handle(After(requests[..j]), requests[j])
  {
    assert requests[..j + 1][..j] == requests[..j];
  }

  /** The history only grows. */
  lemma {:induction false} HistoryGrows(requests: seq<Request>, i: nat, j: nat)
    requires i <= j <= |requests|
    ensures After(requests[..i]).history <= After(requests[..j]).history
  {
    if i < j {
      HistoryGrows(requests, i, j - 1);
      AfterSnoc(requests, j - 1);
    }
  }

  /** A request that touches the repo's entry leaves an event of the repo behind. */
  lemma TouchLeavesEvent(requests: seq<Request>, l: nat, repo: string)
    requires Touches(requests, l, repo)
    ensures var e := |After(requests[..l]).history|;
            e < |After(requests).history| && After(requests).history[e].repo == repo
  {
    AfterSnoc(requests, l);
    HistoryGrows(requests, l + 1, |requests|);
    assert requests[..|requests|] == requests;
  }

  /** Every computation in the history was made by one request. */
  lemma {:induction false} EventSource(requests: seq<Request>, e: nat) returns (j: nat)
    requires e < |After(requests).history| && After(requests).history[e].Computed?
    ensures Recomputes(requests, j) && |After(requests[..j]).history| == e
    ensures After(requests).history[e] == Computation(After(requests[..j]), requests[j])
    decreases |requests|
  {
    var n := |requests| - 1;
    var init := requests[..n];
    AfterSnoc(requests, n);
    assert requests[..n + 1] == requests;
    if e < |After(init).history| {
      HistoryGrows(requests, n, n + 1);
      j := EventSource(init, e);
      assert init[..j] == requests[..j];
    } else {
      j := n;
    }
  }

  /** Over every run of registry operations, store updates, invalidations and evaluations: a
      scorecard returned without data was computed by one request, less than the time to live
      before unless by this one, and nothing has touched the repo's entry in between. */
  lemma AnswerIsTraced(requests: seq<Request>, k: nat) returns (j: nat)
    requires k < |requests| && requests[k].Ask? && requests[k].given.None?
    ensures j <= k && Recomputes(requests, j) && requests[j].repo == requests[k].repo
    ensures Answer(After(requests[..k]), requests[k]) == Computation(After(requests[..j]), requests[j]).scorecard
    ensures j < k ==> requests[k].now - requests[j].cachedAt < TTL_SECONDS
    ensures forall l :: j < l < k ==> !Touches(requests, l, requests[k].repo)
  {
    var before, q := requests[..k], requests[k];
    var s := After(before);
    if !ServedFromCache(s, q) {
      j := k;
    } else {
      var (scorecard, at) := Replay(s.history)[q.repo];
      CachedMeansLatest(s.history, q.repo, scorecard, at);
      var e: nat :| LatestAt(s.history, q.repo, scorecard, at, e);
      j := EventSource(before, e);
      assert before[..j] == requests[..j];
      AfterSnoc(requests, j);
      forall l | j < l < k
        ensures !Touches(requests, l, q.repo)
      {
        assert before[..l] == requests[..l];
        HistoryGrows(requests, j + 1, l);
        if Touches(before, l, q.repo) {
          TouchLeavesEvent(before, l, q.repo);
        }
      }
    }
  }

  /** An active plane holds the repo: the plane is registered, the last operation that gave it a
      status made it active, and an assignment was accepted and not undone since. */
  ghost predicate StandsAssigned(ops: seq<Op>, id: string, repo: string) {
    && (exists r: nat :: RegisteredSince(ops, id, r))
    && (exists k: nat :: StatusSince(ops, id, Active, k))
    && (exists i: nat :: HeldSince(ops, id, repo, i))
  }

  lemma StandsMeansActive(ops: seq<Op>, id: string, repo: string)
    ensures StandsAssigned(ops, id, repo)
            <==> id in Run(ops) && Run(ops)[id].status == Active && repo in Run(ops)[id].repos
  {
    RegisteredMeans(ops, id);
    HeldMeansAssigned(ops, id, repo);
    if id in Run(ops) {
      StatusIsLastSet(ops, id, Active);
      assert Holds(Run(ops), id, repo) <==> repo in Run(ops)[id].repos;
    }
  }

  lemma ServedMeansAssigned(ops: seq<Op>, repo: string)
    ensures Served(Run(ops), repo) <==> exists id :: StandsAssigned(ops, id, repo)
  {
    forall id
      ensures StandsAssigned(ops, id, repo)
              <==> id in Run(ops) && Run(ops)[id].status == Active && repo in Run(ops)[id].repos
    {
      StandsMeansActive(ops, id, repo);
    }
    if Served(Run(ops), repo) {
      var id :| id in Run(ops) && Run(ops)[id].status == Active && repo in Run(ops)[id].repos;
      assert StandsAssigned(ops, id, repo);
    }
  }

  /** Request `i` stored the repo's data last. */
  predicate StoredSince(requests: seq<Request>, repo: string, i: nat) {
    && i < |requests| && requests[i].SetData? && requests[i].repo == repo
    && forall l :: i < l < |requests| ==> !(requests[l].SetData? && requests[l].repo == repo)
  }

  /** After any run the store holds, for each repo, the data stored last for it. */
  lemma {:induction false} StoreIsLastSet(requests: seq<Request>, repo: string)
    ensures repo in After(requests).store <==> exists i: nat :: StoredSince(requests, repo, i)
    ensures forall i: nat :: StoredSince(requests, repo, i) ==>
                               repo in After(requests).store && After(requests).store[repo] == requests[i].data
  {
    if requests != [] {
      var init, q := requests[..|requests| - 1], requests[|requests| - 1];
      assert requests == init + [q];
      StoreIsLastSet(init, repo);
      HandleStore(After(init), q);
      forall i: nat
        ensures StoredSince(requests, repo, i)
                <==> if q.SetData? && q.repo == repo then i == |init| else StoredSince(init, repo, i)
      {
        StoredSnoc(init, q, repo, i);
      }
      if q.SetData? && q.repo == repo {
        assert StoredSince(requests, repo, |init|);
      } else if i: nat :| StoredSince(init, repo, i) {
        assert StoredSince(requests, repo, i);
      }
    }
  }

  lemma HandleStore(s: Situation, q: Request)
    ensures Handle(s, q).store == if q.SetData? then s.store[q.repo := q.data] else s.store
  {}

  lemma StoredSnoc(init: seq<Request>, q: Request, repo: string, i: nat)
    ensures StoredSince(init + [q], repo, i)
            <==> if q.SetData? && q.repo == repo then i == |init| else StoredSince(init, repo, i)
  {
    var more := init + [q];
    assert more[|init|] == q && forall l :: 0 <= l < |init| ==> more[l] == init[l];
  }

  /** The last data stored for the repo have all seven of their flags set. */
  ghost predicate LastStoredPasses(requests: seq<Request>, repo: string) {
    exists i: nat :: StoredSince(requests, repo, i) && SevenSet(requests[i].data)
  }

  /** What a computation by request `q` after `past` says: the caller's eight flags, or the flags
      stored last for the repo and whether an accepted assignment to a then-active plane stood. */
  ghost predicate TellsTruth(past: seq<Request>, q: Request, s: Scorecard)
    requires q.Ask?
  {
    && s.repoId == q.repo && |s.checks| == 8
    && (q.given.Some? ==> (s.overallPass <==> SevenSet(q.given.value) && q.given.value.executionPlaneHealthy))
    && (q.given.None? ==>
          var healthy := exists id :: StandsAssigned(PlaneOps(past), id, q.repo);
          && s.checks[6] == Check(ExecutionPlaneHealth, healthy)
          && (s.overallPass <==> healthy && LastStoredPasses(past, q.repo)))
  }

  lemma ComputationTellsTruth(past: seq<Request>, q: Request)
    requires q.Ask?
    ensures TellsTruth(past, q, Computation(After(past), q).scorecard)
  {
    var s := After(past);
    if q.given.Some? {
      ScoredPlainly(q.repo, q.given.value, q.evaluatedAt);
    } else {
      ScoredPlainly(q.repo, FetchedData(q.repo, StoredData(s.store, q.repo), s.planes), q.evaluatedAt);
      PlanesAfter(past);
      ServedMeansAssigned(PlaneOps(past), q.repo);
      StoredFlags(past, q.repo);
    }
  }

  lemma StoredFlags(past: seq<Request>, repo: string)
    ensures var stored := StoredData(After(past).store, repo);
      LastStoredPasses(past, repo) <==> stored.Some? && SevenSet(stored.value)
  {
    StoreIsLastSet(past, repo);
    if repo in After(past).store {
      var i: nat :| StoredSince(past, repo, i);
      assert After(past).store[repo] == past[i].data;
    }
  }

  /** Every answer to a request without data tells the truth of the moment when it was computed, by
      one request at most an hour before unless by this one: its plane check says whether an accepted
      assignment of the repo to a then-active plane stood, and it passes iff that was so and the data
      stored last for the repo passed. */
  lemma AnswerTellsTruth(requests: seq<Request>, k: nat) returns (j: nat)
    requires k < |requests| && requests[k].Ask? && requests[k].given.None?
    ensures j <= k && Recomputes(requests, j) && requests[j].repo == requests[k].repo
    ensures j < k ==> requests[k].now - requests[j].cachedAt < 3600
    ensures TellsTruth(requests[..j], requests[j], Answer(After(requests[..k]), requests[k]))
  {
    j := AnswerIsTraced(requests, k);
    ComputationTellsTruth(requests[..j], requests[j]);
  }
}
