/** The registry of execution planes. Each plane keeps a list of repo ids; together the lists
    stand for one relation between planes and repos, which only assign and unassign change. */
module PlaneRegistry {
  import Sorting
  import opened Distinctness

  datatype PlaneStatus = Active | Paused | Draining

  class ExecutionPlane {
    const planeId: string
    const name: string
    const region: string
    const createdAt: int
    var status: PlaneStatus
    var repoIds: seq<string>

    constructor (planeId: string, name: string, region: string, createdAt: int)
      ensures this.planeId == planeId && this.name == name && this.region == region
      ensures this.createdAt == createdAt && status == Active && repoIds == []
    {
      this.planeId, this.name, this.region, this.createdAt := planeId, name, region, createdAt;
      status, repoIds := Active, [];
    }
  }

  datatype HealthSummary = HealthSummary(planeId: string, name: string, status: PlaneStatus, repoCount: nat,
                                         healthy: bool)

  // ----- What the registry means -------------------------------------------------------

  /** A registered plane: its status and the set of repos it holds. */
  datatype Standing = Standing(status: PlaneStatus, repos: set<string>)

  /** The registered planes; together their sets are the relation between planes and repos. */
  type View = map<string, Standing>

  predicate Holds(v: View, id: string, repo: string) {
    id in v && repo in v[id].repos
  }

  datatype Op =
    | Register(id: string)
    | Assign(id: string, repo: string)
    | Unassign(id: string, repo: string)
    | SetStatus(id: string, status: PlaneStatus)
    | Delete(id: string)

  /** The meaning of each operation; one on an unknown plane does nothing. Registering always
      starts an empty plane, and a plane is deleted only when it is empty. */
  function Apply(v: View, op: Op): View {
    match op
    case Register(id) => v[id := Standing(Active, {})]
    case Assign(id, repo) => if id in v then v[id := Standing(v[id].status, v[id].repos + {repo})] else v
    case Unassign(id, repo) => if id in v then v[id := Standing(v[id].status, v[id].repos - {repo})] else v
    case SetStatus(id, status) => if id in v then v[id := Standing(status, v[id].repos)] else v
    case Delete(id) => if id in v && v[id].repos == {} then v - {id} else v
  }

  function Run(ops: seq<Op>): View {
    if ops == [] then map[] else Apply(Run(ops[..|ops| - 1]), ops[|ops| - 1])
  }

  lemma RunSnoc(ops: seq<Op>, op: Op)
    ensures Run(ops + [op]) == Apply(Run(ops), op)
  {
    assert (ops + [op])[..|ops|] == ops;
  }

  /** Some active plane holds the repo. */
  ghost predicate Served(v: View, repo: string) {
    exists id :: id in v && v[id].status == Active && repo in v[id].repos
  }

  // ----- The registry ------------------------------------------------------------------

  /** What a plane is sorted by, with its id. */
  datatype Stamp = Stamp(createdAt: int, planeId: string)

  predicate Older(a: Stamp, b: Stamp) {
    a.createdAt <= b.createdAt
  }

  function Summary(p: ExecutionPlane): HealthSummary
    reads p
  {
    HealthSummary(p.planeId, p.name, p.status, |p.repoIds|, p.status == Active)
  }

  lemma OlderIsPreorder()
    ensures Sorting.TotalPreorder(Older)
  {}

  predicate Listed(planes: map<string, ExecutionPlane>, s: Stamp) {
    s.planeId in planes && s.createdAt == planes[s.planeId].createdAt
  }

  function Without(s: seq<string>, x: string): (r: seq<string>)
    ensures forall y :: y in r ==> y in s
    ensures forall y :: y in s && y != x ==> y in r
  {
    if s == [] then [] else if s[0] == x then s[1..] else [s[0]] + Without(s[1..], x)
  }

  /** Taking out the first occurrence takes out the repo, as it is listed only once. */
  lemma {:induction false} WithoutRemoves(s: seq<string>, x: string)
    requires Distinct(s)
    ensures Distinct(Without(s, x)) && x !in Without(s, x)
  {
    if s != [] {
      assert s == [s[0]] + s[1..];
      DistinctCons(s[0], s[1..]);
      if s[0] != x {
        WithoutRemoves(s[1..], x);
        DistinctCons(s[0], Without(s[1..], x));
      }
    }
  }

  /** A dictionary's insertion order: every key once. */
  ghost predicate Orders<T>(order: seq<string>, m: map<string, T>) {
    Distinct(order) && forall id :: id in order <==> id in m
  }

  lemma OrdersAdd<T>(order: seq<string>, m: map<string, T>, id: string, t: T)
    requires Orders(order, m)
    ensures Orders(if id in m then order else order + [id], m[id := t])
  {
    if id !in m {
      DistinctSnoc(order, id);
    }
  }

  lemma OrdersRemove<T>(order: seq<string>, m: map<string, T>, id: string)
    requires Orders(order, m)
    ensures Orders(Without(order, id), m - {id})
  {
    WithoutRemoves(order, id);
  }

  /** A plane is registered under its own id and lists no repo twice. */
  ghost predicate KeptUnder(p: ExecutionPlane, id: string)
    reads p
  {
    p.planeId == id && Distinct(p.repoIds)
  }

  function RepoSet(repos: seq<string>): set<string> {
    set repo | repo in repos
  }

  lemma RepoSetAdd(repos: seq<string>, repo: string)
    ensures RepoSet(if repo in repos then repos else repos + [repo]) == RepoSet(repos) + {repo}
  {}

  lemma RepoSetWithout(repos: seq<string>, repo: string)
    requires Distinct(repos)
    ensures RepoSet(Without(repos, repo)) == RepoSet(repos) - {repo}
  {
    WithoutRemoves(repos, repo);
  }

  function StandingOf(p: ExecutionPlane): Standing
    reads p
  {
    Standing(p.status, RepoSet(p.repoIds))
  }

  /** The view that the planes' lists stand for. */
  function ViewOf(planes: map<string, ExecutionPlane>): View
    reads planes.Values
  {
    map id | id in planes :: StandingOf(planes[id])
  }

  lemma SameBut(v: View, w: View, id: string, s: Standing)
    requires v.Keys == w.Keys + {id} && id in v && v[id] == s
    requires forall k :: k in w && k != id ==> v[k] == w[k]
    ensures v == w[id := s]
  {}

  lemma ViewPut(after: map<string, ExecutionPlane>, before: map<string, ExecutionPlane>, id: string, p: ExecutionPlane)
    requires after == before[id := p] && p.status == Active && p.repoIds == []
    ensures ViewOf(after) == ViewOf(before)[id := Standing(Active, {})]
  {
    assert StandingOf(p) == Standing(Active, {});
    SameBut(ViewOf(after), ViewOf(before), id, StandingOf(p));
  }

  lemma SameWithout(v: View, w: View, id: string)
    requires v.Keys == w.Keys - {id}
    requires forall k :: k in v ==> v[k] == w[k]
    ensures v == w - {id}
  {}

  lemma EmptyStanding(p: ExecutionPlane)
    ensures StandingOf(p).repos == {} <==> p.repoIds == []
  {
    if p.repoIds != [] {
      assert p.repoIds[0] in StandingOf(p).repos;
    }
  }

  /** The repos held by some plane. */
  function ReposOn(v: View): set<string> {
    set id, repo | id in v && repo in v[id].repos :: repo
  }

  /** Sorting keeps exactly the stamps there are. */
  lemma SameStamps(stamps: seq<Stamp>)
    ensures forall s :: s in Sorting.Sort(Older, stamps) <==> s in stamps
  {
    forall s
      ensures s in Sorting.Sort(Older, stamps) <==> s in stamps
    {
      Sorting.SortMember(Older, stamps, s);
    }
  }

  class ExecutionPlaneRegistry {
    var planes: map<string, ExecutionPlane>
    var order: seq<string>

    constructor ()
      ensures Valid() && planes == map[] && Meaning() == Run([])
    {
      planes, order := map[], [];
    }

    ghost predicate Valid()
      reads this, planes.Values
    {
      && (forall id :: id in planes ==> KeptUnder(planes[id], id))
      && Orders(order, planes)
    }

    /** What the planes and their lists stand for. */
    function Meaning(): View
      reads this, planes.Values
    {
      ViewOf(planes)
    }

    method Register(id: string, name: string, region: string, now: int) returns (plane: ExecutionPlane)
      requires Valid()
      modifies this
      ensures Valid() && fresh(plane) && planes == old(planes)[id := plane]
      ensures plane.name == name && plane.region == region && plane.createdAt == now
      ensures plane.status == Active && plane.repoIds == []
      ensures Meaning() == Apply(old(Meaning()), Op.Register(id))
    {
      plane := new ExecutionPlane(id, name, region, now);
      Enter(plane);
    }

    /** Puts a new plane into the dictionary under its own id. */
    method Enter(plane: ExecutionPlane)
      requires Valid() && plane.status == Active && plane.repoIds == []
      modifies this
      ensures Valid() && planes == old(planes)[plane.planeId := plane]
      ensures Meaning() == Apply(old(Meaning()), Op.Register(plane.planeId))
    {
      var id := plane.planeId;
      OrdersAdd(order, planes, id, plane);
      order := if id in planes then order else order + [id];
      planes := planes[id := plane];
      assert Meaning() == Apply(old(Meaning()), Op.Register(id)) by {
        ViewPut(planes, old(planes), id, plane);
      }
    }

    function Stamps(): (r: seq<Stamp>)
      requires Valid()
      reads this, planes.Values
      ensures |r| == |order|
      ensures forall i :: 0 <= i < |r| ==> order[i] in planes && r[i] == Stamp(planes[order[i]].createdAt, order[i])
    {
      assert forall i :: 0 <= i < |order| ==> order[i] in order;
      var ps, ids := planes, order;
      seq(|ids|, i requires 0 <= i < |ids| && ids[i] in ps => Stamp(ps[ids[i]].createdAt, ids[i]))
    }

    /** All planes by creation time, earlier registrations first among equals. */
    function ListPlanes(): seq<ExecutionPlane>
      requires Valid()
      reads this, planes.Values
    {
      StampsSorted();
      var sorted, ps := Sorting.Sort(Older, Stamps()), planes;
      seq(|sorted|, k requires 0 <= k < |sorted| && Listed(ps, sorted[k]) => ps[sorted[k].planeId])
    }

    /** The list holds exactly the registered planes, by rising creation time. */
    lemma ListPlanesFacts()
      requires Valid()
      ensures forall k :: 0 <= k < |ListPlanes()| ==>
                ListPlanes()[k].planeId in planes && planes[ListPlanes()[k].planeId] == ListPlanes()[k]
      ensures forall id :: id in planes ==> planes[id] in ListPlanes()
      ensures forall k, l :: 0 <= k < l < |ListPlanes()| ==> ListPlanes()[k].createdAt <= ListPlanes()[l].createdAt
    {
      StampsSorted();
      var sorted, r := Sorting.Sort(Older, Stamps()), ListPlanes();
      assert |r| == |sorted| && forall k :: 0 <= k < |r| ==> r[k] == planes[sorted[k].planeId];
      forall id | id in planes
        ensures planes[id] in r
      {
        var k :| 0 <= k < |sorted| && sorted[k].planeId == id;
        assert r[k] == planes[id];
      }
      forall k, l | 0 <= k < l < |r|
        ensures r[k].createdAt <= r[l].createdAt
      {
        assert Older(sorted[k], sorted[l]);
      }
    }

    lemma StampsSorted()
      requires Valid()
      ensures var sorted := Sorting.Sort(Older, Stamps());
        && Sorting.SortedBy(Older, sorted)
        && (forall k :: 0 <= k < |sorted| ==> Listed(planes, sorted[k]))
        && (forall id :: id in planes ==> exists k :: 0 <= k < |sorted| && sorted[k].planeId == id)
    {
      OlderIsPreorder();
      Sorting.SortSorts(Older, Stamps());
      SameStamps(Stamps());
      StampsExact();
      var sorted := Sorting.Sort(Older, Stamps());
      assert forall k :: 0 <= k < |sorted| ==> sorted[k] in sorted;
      forall id | id in planes
        ensures exists k :: 0 <= k < |sorted| && sorted[k].planeId == id
      {
        var i :| 0 <= i < |Stamps()| && Stamps()[i].planeId == id;
        assert Stamps()[i] in sorted;
      }
    }

    /** There is a stamp for every plane, and for nothing else. */
    lemma StampsExact()
      requires Valid()
      ensures forall s :: s in Stamps() ==> Listed(planes, s)
      ensures forall id :: id in planes ==> exists i :: 0 <= i < |Stamps()| && Stamps()[i].planeId == id
    {
      var stamps := Stamps();
      forall s | s in stamps
        ensures Listed(planes, s)
      {
        var i :| 0 <= i < |stamps| && stamps[i] == s;
      }
      forall id | id in planes
        ensures exists i :: 0 <= i < |stamps| && stamps[i].planeId == id
      {
        var i :| 0 <= i < |order| && order[i] == id;
        assert stamps[i].planeId == id;
      }
    }

    method AssignRepo(id: string, repo: string) returns (ok: bool)
      requires Valid()
      modifies (if id in planes then {planes[id]} else {})`repoIds
      ensures Valid() && ok == (id in planes)
      ensures ok ==> planes[id].repoIds
                     == if repo in old(planes[id].repoIds) then old(planes[id].repoIds)
                        else old(planes[id].repoIds) + [repo]
      ensures Meaning() == Apply(old(Meaning()), Assign(id, repo))
    {
      if id !in planes {
        return false;
      }
      var plane := planes[id];
      RepoSetAdd(plane.repoIds, repo);
      if repo !in plane.repoIds {
        DistinctSnoc(plane.repoIds, repo);
        plane.repoIds := plane.repoIds + [repo];
      }
      SameBut(Meaning(), old(Meaning()), id, StandingOf(planes[id]));
      ok := true;
    }

    method UnassignRepo(id: string, repo: string) returns (ok: bool)
      requires Valid()
      modifies (if id in planes then {planes[id]} else {})`repoIds
      ensures Valid() && ok == (id in planes)
      ensures ok ==> planes[id].repoIds == Without(old(planes[id].repoIds), repo)
      ensures Meaning() == Apply(old(Meaning()), Unassign(id, repo))
    {
      if id !in planes {
        return false;
      }
      var plane := planes[id];
      WithoutRemoves(plane.repoIds, repo);
      RepoSetWithout(plane.repoIds, repo);
      plane.repoIds := Without(plane.repoIds, repo);
      SameBut(Meaning(), old(Meaning()), id, StandingOf(planes[id]));
      ok := true;
    }

    method SetStatus(id: string, status: PlaneStatus) returns (ok: bool)
      requires Valid()
      modifies (if id in planes then {planes[id]} else {})`status
      ensures Valid() && ok == (id in planes)
      ensures ok ==> planes[id].status == status
      ensures forall other :: other in planes && other != id ==> planes[other].status == old(planes[other].status)
      ensures Meaning() == Apply(old(Meaning()), Op.SetStatus(id, status))
    {
      if id !in planes {
        return false;
      }
      planes[id].status := status;
      SameBut(Meaning(), old(Meaning()), id, StandingOf(planes[id]));
      ok := true;
    }

    /** Refuses a plane that still holds repos, so that deleting loses no pair. */
    method Delete(id: string) returns (ok: bool)
      requires Valid()
      modifies this
      ensures Valid() && ok == (id in old(planes) && old(planes)[id].repoIds == [])
      ensures planes == if ok then old(planes) - {id} else old(planes)
      ensures Meaning() == Apply(old(Meaning()), Op.Delete(id))
    {
      if id !in planes {
        return false;
      }
      EmptyStanding(planes[id]);
      if planes[id].repoIds != [] {
        return false;
      }
      OrdersRemove(order, planes, id);
      planes := planes - {id};
      order := Without(order, id);
      SameWithout(Meaning(), old(Meaning()), id);
      ok := true;
    }

    /** One summary per plane; a plane is healthy iff it is active. */
    method GetHealthSummary() returns (summaries: seq<HealthSummary>)
      requires Valid()
      ensures |summaries| == |ListPlanes()|
      ensures forall k :: 0 <= k < |summaries| ==> summaries[k] == Summary(ListPlanes()[k])
      ensures forall k :: 0 <= k < |summaries| ==> (summaries[k].healthy <==> ListPlanes()[k].status == Active)
      ensures forall k :: 0 <= k < |summaries| ==>
                && summaries[k].planeId == ListPlanes()[k].planeId && summaries[k].name == ListPlanes()[k].name
                && summaries[k].status == ListPlanes()[k].status
                && summaries[k].repoCount == |ListPlanes()[k].repoIds|
    {
      summaries := [];
      var listed := ListPlanes();
      for i := 0 to |listed|
        invariant |summaries| == i
        invariant forall k :: 0 <= k < i ==> summaries[k] == Summary(listed[k])
      {
        var p := listed[i];
        summaries := summaries + [HealthSummary(p.planeId, p.name, p.status, |p.repoIds|, p.status == Active)];
      }
    }

    /** How many different repos the planes hold. */
    method TotalRepoCount() returns (n: nat)
      requires Valid()
      ensures n == |ReposOn(Meaning())|
    {
      var seen: set<string> := {};
      for i := 0 to |order|
        invariant forall repo :: repo in seen <==>
                    exists j :: 0 <= j < i && order[j] in planes && repo in planes[order[j]].repoIds
      {
        seen := seen + set repo | repo in planes[order[i]].repoIds;
      }
      forall repo
        ensures repo in seen <==> repo in ReposOn(Meaning())
      {
        if repo in ReposOn(Meaning()) {
          var id :| id in Meaning() && repo in Meaning()[id].repos;
          var j :| 0 <= j < |order| && order[j] == id;
          assert repo in planes[order[j]].repoIds;
        }
        if repo in seen {
          var j :| 0 <= j < |order| && order[j] in planes && repo in planes[order[j]].repoIds;
          assert order[j] in Meaning() && repo in Meaning()[order[j]].repos;
        }
      }
      assert seen == ReposOn(Meaning());
      n := |seen|;
    }
  }

  // ----- Whole runs --------------------------------------------------------------------

  /** Operation `k` assigned the repo to a plane that was registered at that moment. */
  predicate AssignedAt(ops: seq<Op>, id: string, repo: string, k: nat) {
    k < |ops| && ops[k] == Assign(id, repo) && id in Run(ops[..k])
  }

  predicate Clears(op: Op, id: string, repo: string) {
    op == Unassign(id, repo) || op == Register(id)
  }

  predicate HeldSince(ops: seq<Op>, id: string, repo: string, k: nat) {
    AssignedAt(ops, id, repo, k) && forall l :: k < l < |ops| ==> !Clears(ops[l], id, repo)
  }

  lemma AssignedSnoc(ops: seq<Op>, op: Op, id: string, repo: string, k: nat)
    ensures k < |ops| ==> (AssignedAt(ops + [op], id, repo, k) <==> AssignedAt(ops, id, repo, k))
    ensures k == |ops| ==> (AssignedAt(ops + [op], id, repo, k) <==> op == Assign(id, repo) && id in Run(ops))
  {
    if k <= |ops| {
      assert (ops + [op])[..k] == ops[..k];
    }
    assert ops[..|ops|] == ops;
  }

  lemma HeldSinceSnoc(ops: seq<Op>, op: Op, id: string, repo: string, k: nat)
    ensures HeldSince(ops + [op], id, repo, k)
            <==> (HeldSince(ops, id, repo, k) && !Clears(op, id, repo))
                 || (k == |ops| && op == Assign(id, repo) && id in Run(ops))
  {
    AssignedSnoc(ops, op, id, repo, k);
    var more := ops + [op];
    assert more[|ops|] == op && forall l :: 0 <= l < |ops| ==> more[l] == ops[l];
  }

  /** One operation gains a pair only by an accepted assign, and loses one only by an unassign or
      a fresh registration: pausing, draining and deleting planes never lose a pair. */
  lemma HoldsStep(v: View, op: Op, id: string, repo: string)
    ensures Holds(Apply(v, op), id, repo)
            <==> (op == Assign(id, repo) && id in v) || (Holds(v, id, repo) && !Clears(op, id, repo))
  {}

  /** After any run, a plane holds a repo iff an assignment to it was accepted and nothing has
      unassigned the repo or registered the plane afresh since. */
  lemma {:induction false} HeldMeansAssigned(ops: seq<Op>, id: string, repo: string)
    ensures Holds(Run(ops), id, repo) <==> exists k: nat :: HeldSince(ops, id, repo, k)
  {
    if ops != [] {
      var init, op := ops[..|ops| - 1], ops[|ops| - 1];
      assert ops == init + [op];
      HeldMeansAssigned(init, id, repo);
      HoldsStep(Run(init), op, id, repo);
      forall k: nat
        ensures HeldSince(ops, id, repo, k)
                <==> (HeldSince(init, id, repo, k) && !Clears(op, id, repo))
                     || (k == |init| && op == Assign(id, repo) && id in Run(init))
      {
        HeldSinceSnoc(init, op, id, repo, k);
      }
      if Holds(Run(ops), id, repo) {
        var k: nat;
        if Holds(Run(init), id, repo) && !Clears(op, id, repo) {
          k :| HeldSince(init, id, repo, k);
        } else {
          k := |init|;
        }
        assert HeldSince(ops, id, repo, k);
      }
    }
  }

  ghost predicate HoldsNone(v: View, id: string) {
    forall repo :: !Holds(v, id, repo)
  }

  /** Operation `l` deletes the plane: it holds no repo at that moment. */
  ghost predicate DeletedAt(ops: seq<Op>, id: string, l: nat) {
    l < |ops| && ops[l] == Delete(id) && HoldsNone(Run(ops[..l]), id)
  }

  /** Operation `r` registered the plane, and nothing has deleted it since. */
  ghost predicate RegisteredSince(ops: seq<Op>, id: string, r: nat) {
    r < |ops| && ops[r] == Register(id) && forall l :: r < l < |ops| ==> !DeletedAt(ops, id, l)
  }

  lemma DeletedSnoc(ops: seq<Op>, op: Op, id: string, l: nat)
    ensures l < |ops| ==> (DeletedAt(ops + [op], id, l) <==> DeletedAt(ops, id, l))
    ensures l == |ops| ==>
              (DeletedAt(ops + [op], id, l) <==> op == Delete(id) && HoldsNone(Run(ops), id))
  {
    if l <= |ops| {
      assert (ops + [op])[..l] == ops[..l];
    }
    assert ops[..|ops|] == ops;
  }

  lemma RegisteredSnoc(ops: seq<Op>, op: Op, id: string, r: nat)
    ensures RegisteredSince(ops + [op], id, r)
            <==> (RegisteredSince(ops, id, r) && !DeletedAt(ops + [op], id, |ops|))
                 || (r == |ops| && op == Register(id))
  {
    var more := ops + [op];
    assert more[|ops|] == op && forall l :: 0 <= l < |ops| ==> more[l] == ops[l];
    forall l: nat | l < |ops|
      ensures DeletedAt(more, id, l) <==> DeletedAt(ops, id, l)
    {
      DeletedSnoc(ops, op, id, l);
    }
  }

  lemma RegisteredStep(v: View, op: Op, id: string)
    ensures id in Apply(v, op)
            <==> op == Register(id) || (id in v && !(op == Delete(id) && HoldsNone(v, id)))
  {
    if op == Delete(id) && id in v {
      if v[id].repos == {} {
        assert id !in Apply(v, op);
      } else {
        var repo :| repo in v[id].repos;
        assert Holds(v, id, repo);
      }
    }
  }

  /** After any run, a plane is registered iff some operation registered it and nothing has deleted it
      since; a delete of a plane that holds a repo at that moment does not. */
  lemma {:induction false} RegisteredMeans(ops: seq<Op>, id: string)
    ensures id in Run(ops) <==> exists r: nat :: RegisteredSince(ops, id, r)
  {
    if ops != [] {
      var init, op := ops[..|ops| - 1], ops[|ops| - 1];
      assert ops == init + [op];
      RegisteredMeans(init, id);
      RegisteredStep(Run(init), op, id);
      DeletedSnoc(init, op, id, |init|);
      forall r: nat
        ensures RegisteredSince(ops, id, r)
                <==> (RegisteredSince(init, id, r) && !DeletedAt(ops, id, |init|))
                     || (r == |init| && op == Register(id))
      {
        RegisteredSnoc(init, op, id, r);
      }
      if id in Run(ops) {
        var r: nat;
        if op == Register(id) {
          r := |init|;
        } else {
          r :| RegisteredSince(init, id, r);
        }
        assert RegisteredSince(ops, id, r);
      }
    }
  }

  predicate GivesStatus(op: Op, id: string) {
    op == Register(id) || (op.SetStatus? && op.id == id)
  }

  /** Operation `k` gave the plane this status, and none has given it one since: it registered the
      plane, which makes it active, or set the status of the registered plane. */
  ghost predicate StatusSince(ops: seq<Op>, id: string, status: PlaneStatus, k: nat) {
    && k < |ops|
    && ((ops[k] == Register(id) && status == Active) || (ops[k] == SetStatus(id, status) && id in Run(ops[..k])))
    && forall l :: k < l < |ops| ==> !GivesStatus(ops[l], id)
  }

  lemma StatusSnoc(ops: seq<Op>, op: Op, id: string, status: PlaneStatus, k: nat)
    ensures StatusSince(ops + [op], id, status, k)
            <==> (StatusSince(ops, id, status, k) && !GivesStatus(op, id))
                 || (k == |ops| && ((op == Register(id) && status == Active)
                                    || (op == SetStatus(id, status) && id in Run(ops))))
  {
    var more := ops + [op];
    assert more[|ops|] == op && forall l :: 0 <= l < |ops| ==> more[l] == ops[l];
    assert k <= |ops| ==> more[..k] == ops[..k];
    assert ops[..|ops|] == ops;
  }

  lemma StatusStep(v: View, op: Op, id: string, status: PlaneStatus)
    requires id in Apply(v, op)
    ensures Apply(v, op)[id].status == status
            <==> (op == Register(id) && status == Active) || (op == SetStatus(id, status) && id in v)
                 || (id in v && v[id].status == status && !GivesStatus(op, id))
    ensures id in v || op == Register(id)
  {}

  /** After any run, a registered plane's status is the one that was set last on it since it was last
      registered, and active if none was. */
  lemma {:induction false} StatusIsLastSet(ops: seq<Op>, id: string, status: PlaneStatus)
    requires id in Run(ops)
    ensures Run(ops)[id].status == status <==> exists k: nat :: StatusSince(ops, id, status, k)
  {
    if ops != [] {
      var init, op := ops[..|ops| - 1], ops[|ops| - 1];
      assert ops == init + [op];
      StatusStep(Run(init), op, id, status);
      forall k: nat
        ensures StatusSince(ops, id, status, k)
                <==> (StatusSince(init, id, status, k) && !GivesStatus(op, id))
                     || (k == |init| && ((op == Register(id) && status == Active)
                                         || (op == SetStatus(id, status) && id in Run(init))))
      {
        StatusSnoc(init, op, id, status, k);
      }
      if !GivesStatus(op, id) {
        StatusIsLastSet(init, id, status);
        if k: nat :| StatusSince(init, id, status, k) {
          assert StatusSince(ops, id, status, k);
        }
      } else if Run(ops)[id].status == status {
        assert StatusSince(ops, id, status, |init|);
      }
    }
  }

  /** After any run, the repos counted are those with a standing assignment to some plane. */
  lemma CountedMeansAssigned(ops: seq<Op>, repo: string)
    ensures repo in ReposOn(Run(ops)) <==> exists id, k: nat :: HeldSince(ops, id, repo, k)
  {
    forall id
      ensures Holds(Run(ops), id, repo) <==> exists k: nat :: HeldSince(ops, id, repo, k)
    {
      HeldMeansAssigned(ops, id, repo);
    }
    if repo in ReposOn(Run(ops)) {
      var id :| id in Run(ops) && repo in Run(ops)[id].repos;
      assert Holds(Run(ops), id, repo);
    }
    if id, k: nat :| HeldSince(ops, id, repo, k) {
      assert Holds(Run(ops), id, repo);
    }
  }
}
