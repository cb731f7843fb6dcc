/** Model routing: which class a workflow step gets, which provider serves it, and the
    escalation when a class is exhausted. */
module ModelRouter {
  import opened Wrappers
  import opened Sorting

  datatype ModelClass = Fast | Balanced | Strong

  const CLASS_ORDER := [Fast, Balanced, Strong]

  function Rank(c: ModelClass): nat {
    match c case Fast => 0 case Balanced => 1 case Strong => 2
  }

  function ClassName(c: ModelClass): string {
    match c case Fast => "fast" case Balanced => "balanced" case Strong => "strong"
  }

  datatype Provider = Provider(
    providerId: string, provider: string, modelId: string, modelClass: ModelClass,
    costPer1k: real, costPer1kInput: Option<real>, costPer1kOutput: Option<real>,
    rateLimitTpm: int, priority: int, enabled: bool)
  {
    function InputRate(): real {
      if costPer1kInput.Some? then costPer1kInput.value else costPer1k
    }

    function OutputRate(): real {
      if costPer1kOutput.Some? then costPer1kOutput.value else costPer1k
    }

    function EstimateCost(tokensIn: int, tokensOut: int): real {
      tokensIn as real * InputRate() / 1000.0 + tokensOut as real * OutputRate() / 1000.0
    }
  }

  datatype Rule = Rule(
    step: string, defaultClass: ModelClass, roleOverrides: map<string, ModelClass>,
    overlayOverrides: map<string, ModelClass>, tierOverrides: map<string, ModelClass>)

  const DEFAULT_RULES: seq<Rule> := [
    Rule("intake", Fast, map[], map[], map[]),
    Rule("context", Fast, map[], map[], map[]),
    Rule("intent", Balanced, map[], map["security" := Strong, "compliance" := Strong], map[]),
    Rule("routing", Balanced, map[], map[], map[]),
    Rule("assembler", Balanced, map[], map["security" := Strong], map[]),
    Rule("primary_agent", Balanced, map[], map["security" := Strong], map["execute" := Strong]),
    Rule("qa_eval", Balanced, map[], map["security" := Strong], map[])]

  const DEFAULT_PROVIDERS: seq<Provider> := [
    Provider("fast-default", "anthropic", "claude-haiku-4-5", Fast, 0.001, Some(0.001), Some(0.005), 200000, 0, true),
    Provider("balanced-default", "anthropic", "claude-sonnet-4-6", Balanced, 0.003, Some(0.003), Some(0.015), 100000,
             0, true),
    Provider("strong-default", "anthropic", "claude-opus-4-6", Strong, 0.015, Some(0.005), Some(0.025), 50000, 0, true)]

  /** Steps that cost-optimised routing downgrades. */
  const COST_OPTIMIZED_STEPS: map<string, ModelClass> := map["routing" := Fast, "assembler" := Fast]

  // ----- Resolving the class -----------------------------------------------------------

  function BaseClass(rule: Rule, costRouting: bool, step: string): ModelClass {
    if costRouting && step in COST_OPTIMIZED_STEPS then COST_OPTIMIZED_STEPS[step] else rule.defaultClass
  }

  /** The classes that override the base class in a context. */
  ghost predicate Overrides(rule: Rule, role: string, overlays: set<string>, tier: string, c: ModelClass) {
    || (role != "" && role in rule.roleOverrides && rule.roleOverrides[role] == c)
    || (tier != "" && tier in rule.tierOverrides && rule.tierOverrides[tier] == c)
    || (exists o :: o in overlays && o in rule.overlayOverrides && rule.overlayOverrides[o] == c)
  }

  /** `c` is the highest of the base class and the applicable overrides. */
  ghost predicate IsHighest(rule: Rule, base: ModelClass, role: string, overlays: set<string>, tier: string,
                            c: ModelClass)
  {
    && Rank(base) <= Rank(c)
    && (c == base || Overrides(rule, role, overlays, tier, c))
    && forall d :: Overrides(rule, role, overlays, tier, d) ==> Rank(d) <= Rank(c)
  }

  function Elements(overlays: seq<string>): set<string> {
    set o | o in overlays
  }

  /** What `resolve_class` has to return: the highest applicable class, or BALANCED for a
      step without a rule. */
  ghost predicate Resolves(rules: map<string, Rule>, costRouting: bool, step: string, role: string,
                           overlays: set<string>, tier: string, c: ModelClass)
  {
    if step in rules
    then IsHighest(rules[step], BaseClass(rules[step], costRouting, step), role, overlays, tier, c)
    else c == Balanced
  }

  /** `max(candidates, key=...)`: the first candidate of the highest rank. */
  function Highest(candidates: seq<ModelClass>): (c: ModelClass)
    requires candidates != []
    ensures c in candidates
    ensures forall d :: d in candidates ==> Rank(d) <= Rank(c)
  {
    var last := candidates[|candidates| - 1];
    if |candidates| == 1 then last
    else
      var best := Highest(candidates[..|candidates| - 1]);
      if Rank(last) > Rank(best) then last else best
  }

  /** The resolved class is unique, so it depends on the overlays only as a set. */
  lemma ResolvesUnique(rules: map<string, Rule>, costRouting: bool, step: string, role: string,
                       overlays: set<string>, tier: string, c: ModelClass, d: ModelClass)
    requires Resolves(rules, costRouting, step, role, overlays, tier, c)
    requires Resolves(rules, costRouting, step, role, overlays, tier, d)
    ensures c == d
  {
    assert Rank(c) == Rank(d);
  }

  /** More overlays never lower the class. */
  lemma ResolvesMonotone(rules: map<string, Rule>, costRouting: bool, step: string, role: string,
                         few: set<string>, many: set<string>, tier: string, c: ModelClass, d: ModelClass)
    requires few <= many
    requires Resolves(rules, costRouting, step, role, few, tier, c)
    requires Resolves(rules, costRouting, step, role, many, tier, d)
    ensures Rank(c) <= Rank(d)
  {
    if step in rules {
      var rule := rules[step];
      assert forall x :: Overrides(rule, role, few, tier, x) ==> Overrides(rule, role, many, tier, x);
    }
  }

  /** Cost routing never raises the class and never goes below an applicable override; it
      lowers the class exactly when it lowers the base class and no override reaches it. */
  lemma CostRoutingLowers(rules: map<string, Rule>, step: string, role: string, overlays: set<string>,
                          tier: string, plain: ModelClass, cheap: ModelClass)
    requires Resolves(rules, false, step, role, overlays, tier, plain)
    requires Resolves(rules, true, step, role, overlays, tier, cheap)
    ensures Rank(cheap) <= Rank(plain)
    ensures step in rules ==>
              forall c :: Overrides(rules[step], role, overlays, tier, c) ==> Rank(c) <= Rank(cheap)
    ensures cheap != plain <==>
              && step in rules && step in COST_OPTIMIZED_STEPS && rules[step].defaultClass != Fast
              && !exists c :: Overrides(rules[step], role, overlays, tier, c)
                              && Rank(c) >= Rank(rules[step].defaultClass)
  {
    if step in rules {
      var rule := rules[step];
      assert step in COST_OPTIMIZED_STEPS ==> COST_OPTIMIZED_STEPS[step] == Fast;
      assert cheap == plain <==> Rank(cheap) == Rank(plain);
    }
  }

  /** The resolved class in full: at least the step's own class, which cost routing makes FAST for the
      two cheap steps, and at least every override of the role, the tier and the overlays; and it is
      one of these. The step's own class is BALANCED without a rule. */
  lemma ResolvedInFull(rules: map<string, Rule>, costRouting: bool, step: string, role: string,
                       overlays: set<string>, tier: string, c: ModelClass)
    requires Resolves(rules, costRouting, step, role, overlays, tier, c)
    ensures step !in rules ==> c == Balanced
    ensures step in rules ==>
      var rule := rules[step];
      var base := if costRouting && (step == "routing" || step == "assembler") then Fast else rule.defaultClass;
      && Rank(base) <= Rank(c)
      && (role != "" && role in rule.roleOverrides ==> Rank(rule.roleOverrides[role]) <= Rank(c))
      && (tier != "" && tier in rule.tierOverrides ==> Rank(rule.tierOverrides[tier]) <= Rank(c))
      && (forall o :: o in overlays && o in rule.overlayOverrides ==> Rank(rule.overlayOverrides[o]) <= Rank(c))
      && (|| c == base
          || (role != "" && role in rule.roleOverrides && c == rule.roleOverrides[role])
          || (tier != "" && tier in rule.tierOverrides && c == rule.tierOverrides[tier])
          || (exists o :: o in overlays && o in rule.overlayOverrides && c == rule.overlayOverrides[o]))
  {
    if step in rules {
      var rule := rules[step];
      assert Overrides(rule, role, overlays, tier, c) || c == BaseClass(rule, costRouting, step);
      assert role != "" && role in rule.roleOverrides ==>
               Overrides(rule, role, overlays, tier, rule.roleOverrides[role]);
      assert tier != "" && tier in rule.tierOverrides ==>
               Overrides(rule, role, overlays, tier, rule.tierOverrides[tier]);
      forall o | o in overlays && o in rule.overlayOverrides
        ensures Rank(rule.overlayOverrides[o]) <= Rank(c)
      {
        assert Overrides(rule, role, overlays, tier, rule.overlayOverrides[o]);
      }
    }
  }

  /** The price of a call, in thousandths: each side at its own rate, or at the common one. */
  lemma CostInThousandths(p: Provider, tokensIn: int, tokensOut: int)
    ensures 1000.0 * p.EstimateCost(tokensIn, tokensOut)
         == tokensIn as real * (if p.costPer1kInput == None then p.costPer1k else p.costPer1kInput.value)
            + tokensOut as real * (if p.costPer1kOutput == None then p.costPer1k else p.costPer1kOutput.value)
  {
    var i, o := tokensIn as real * p.InputRate(), tokensOut as real * p.OutputRate();
    assert 1000.0 * (i / 1000.0 + o / 1000.0) == i + o;
  }

  // ----- Choosing a provider -----------------------------------------------------------

  predicate DistinctIds(ps: seq<Provider>) {
    forall i, j :: 0 <= i < j < |ps| ==> ps[i].providerId != ps[j].providerId
  }

  predicate ByPriority(a: Provider, b: Provider) {
    a.priority <= b.priority
  }

  predicate ByClassThenPriority(a: Provider, b: Provider) {
    Rank(a.modelClass) < Rank(b.modelClass) || (a.modelClass == b.modelClass && a.priority <= b.priority)
  }

  function Candidate(c: ModelClass, exclude: set<string>): Provider -> bool {
    (p: Provider) => p.modelClass == c && p.enabled && p.providerId !in exclude
  }

  /** The enabled providers that may still be handed out for a target class. */
  function Usable(target: ModelClass, failed: set<string>): Provider -> bool {
    (p: Provider) => Rank(p.modelClass) >= Rank(target) && p.enabled && p.providerId !in failed
  }

  /** The first provider by priority among the candidates of a class. */
  function FindProvider(ps: seq<Provider>, c: ModelClass, exclude: set<string>): Option<Provider> {
    var candidates := Filter(Candidate(c, exclude), ps);
    if candidates == [] then None else Some(Sort(ByPriority, candidates)[0])
  }

  function ExhaustedLabel(c: ModelClass): string {
    ClassName(c) + ":exhausted"
  }

  function EscalatedLabel(c: ModelClass): string {
    "escalated:" + ClassName(c)
  }

  datatype Selection = Chosen(provider: Provider, chain: seq<string>) | NoProvider(modelClass: ModelClass)

  function Labels(classes: seq<ModelClass>): seq<string> {
    seq(|classes|, i requires 0 <= i < |classes| => ExhaustedLabel(classes[i]))
  }

  lemma LabelsSnoc(from: nat, k: nat)
    requires from <= k < 3
    ensures Labels(CLASS_ORDER[from..k + 1]) == Labels(CLASS_ORDER[from..k]) + [ExhaustedLabel(CLASS_ORDER[k])]
  {}

  /** The chain that a selection of class `c` reports: every exhausted class from the target
      up, then the class escalated to. */
  function ChainTo(target: ModelClass, c: ModelClass): seq<string>
    requires Rank(target) <= Rank(c)
  {
    if c == target then [] else Labels(CLASS_ORDER[Rank(target)..Rank(c)]) + [EscalatedLabel(c)]
  }

  /** The lowest class at or above the target that still has a provider decides. */
  function Selected(ps: seq<Provider>, target: ModelClass, failed: set<string>): Selection {
    SelectedFrom(ps, target, failed, Rank(target))
  }

  function SelectedFrom(ps: seq<Provider>, target: ModelClass, failed: set<string>, from: nat): Selection
    requires Rank(target) <= from <= 3
    decreases 3 - from
  {
    if from == 3 then NoProvider(target)
    else
      var c := CLASS_ORDER[from];
      assert Rank(c) == from;
      match FindProvider(ps, c, failed)
      case Some(p) => Chosen(p, ChainTo(target, c))
      case None => SelectedFrom(ps, target, failed, from + 1)
  }

  // ----- The router --------------------------------------------------------------------

  /** A dictionary comprehension over a list: a repeated key keeps its place and takes the
      later value. */
  function ById(ps: seq<Provider>): (r: seq<Provider>)
    ensures DistinctIds(r)
  {
    if ps == [] then []
    else
      var before, p := ById(ps[..|ps| - 1]), ps[|ps| - 1];
      var i := IndexOf(before, p.providerId);
      if i < |before| then before[i := p] else before + [p]
  }

  ghost predicate LatestAt(ps: seq<Provider>, p: Provider, k: nat) {
    k < |ps| && ps[k] == p && forall j :: k < j < |ps| ==> ps[j].providerId != p.providerId
  }

  /** The provider is listed, and no later one has its id. */
  ghost predicate Latest(ps: seq<Provider>, p: Provider) {
    exists k: nat :: LatestAt(ps, p, k)
  }

  lemma LatestSnoc(ps: seq<Provider>, last: Provider, p: Provider)
    ensures Latest(ps + [last], p) <==> p == last || (Latest(ps, p) && p.providerId != last.providerId)
  {
    var more := ps + [last];
    assert more[|ps|] == last;
    if p == last {
      assert LatestAt(more, p, |ps|);
    }
    forall k: nat | LatestAt(more, p, k) && p != last
      ensures LatestAt(ps, p, k) && p.providerId != last.providerId
    {
      assert forall j :: 0 <= j < |ps| ==> more[j] == ps[j];
    }
    if p.providerId != last.providerId && Latest(ps, p) {
      var k: nat :| LatestAt(ps, p, k);
      assert LatestAt(more, p, k);
    }
  }

  /** Registration keeps exactly the latest provider of every id. */
  lemma {:induction false} ByIdKeeps(ps: seq<Provider>)
    ensures forall p :: p in ById(ps) <==> Latest(ps, p)
  {
    if ps != [] {
      var init, last := ps[..|ps| - 1], ps[|ps| - 1];
      assert ps == init + [last];
      ByIdKeeps(init);
      forall p
        ensures p in ById(ps) <==> Latest(ps, p)
      {
        LatestSnoc(init, last, p);
        PutById(ById(init), last, p);
      }
    }
  }

  lemma PutById(ps: seq<Provider>, last: Provider, p: Provider)
    requires DistinctIds(ps)
    ensures var i := IndexOf(ps, last.providerId);
            p in (if i < |ps| then ps[i := last] else ps + [last])
            <==> p == last || (p in ps && p.providerId != last.providerId)
  {
    var i := IndexOf(ps, last.providerId);
    if i < |ps| {
      assert ps[i := last][i] == last;
      if p in ps && p.providerId != last.providerId {
        var k :| 0 <= k < |ps| && ps[k] == p;
        assert ps[i := last][k] == p;
      }
    }
  }

  /** The index of the provider with an id, or the length. */
  function IndexOf(ps: seq<Provider>, id: string): (i: nat)
    ensures i <= |ps|
    ensures i < |ps| ==> ps[i].providerId == id
    ensures forall j :: 0 <= j < i ==> ps[j].providerId != id
  {
    if ps == [] then 0
    else
      var i := IndexOf(ps[..|ps| - 1], id);
      if i < |ps| - 1 then i else if ps[|ps| - 1].providerId == id then |ps| - 1 else |ps|
  }

  function RulesByStep(rules: seq<Rule>): map<string, Rule> {
    if rules == [] then map[]
    else RulesByStep(rules[..|rules| - 1])[rules[|rules| - 1].step := rules[|rules| - 1]]
  }

  /** Python's `given or default` on lists. */
  function OrDefault<T>(given: seq<T>, default: seq<T>): seq<T> {
    if |given| == 0 then default else given
  }

  class Router {
    var providers: seq<Provider>
    var rules: map<string, Rule>
    const costRouting: bool

    ghost predicate Valid()
      reads this
    {
      DistinctIds(providers)
    }

    constructor (ps: seq<Provider>, rs: seq<Rule>, costRouting: bool)
      ensures Valid()
      ensures providers == ById(OrDefault(ps, DEFAULT_PROVIDERS))
      ensures forall p :: p in providers <==> Latest(if ps == [] then DEFAULT_PROVIDERS else ps, p)
      ensures rules == RulesByStep(if rs == [] then DEFAULT_RULES else rs)
      ensures this.costRouting == costRouting
    {
      providers := ById(OrDefault(ps, DEFAULT_PROVIDERS));
      rules := RulesByStep(OrDefault(rs, DEFAULT_RULES));
      this.costRouting := costRouting;
      ByIdKeeps(OrDefault(ps, DEFAULT_PROVIDERS));
    }

    /** Returns false, changing nothing, for an unknown provider. */
    method SetProviderEnabled(id: string, enabled: bool) returns (found: bool)
      requires Valid()
      modifies this`providers
      ensures Valid()
      ensures found <==> exists p :: p in old(providers) && p.providerId == id
      ensures |providers| == |old(providers)|
      ensures forall i :: 0 <= i < |providers| ==>
                providers[i] == if old(providers)[i].providerId == id then old(providers)[i].(enabled := enabled)
                                else old(providers)[i]
    {
      var i := IndexOf(providers, id);
      found := i < |providers|;
      if found {
        providers := providers[i := providers[i].(enabled := enabled)];
      }
    }

    method ResolveClass(step: string, role: string, overlays: seq<string>, tier: string) returns (c: ModelClass)
      ensures Resolves(rules, costRouting, step, role, Elements(overlays), tier, c)
    {
      if step !in rules {
        return Balanced;
      }
      var rule := rules[step];
      var base := rule.defaultClass;
      if costRouting && step in COST_OPTIMIZED_STEPS {
        base := COST_OPTIMIZED_STEPS[step];
      }
      var candidates := [base];
      if role != "" && role in rule.roleOverrides {
        candidates := candidates + [rule.roleOverrides[role]];
      }
      if tier != "" && tier in rule.tierOverrides {
        candidates := candidates + [rule.tierOverrides[tier]];
      }
      for i := 0 to |overlays|
        invariant base in candidates
        invariant forall d :: d in candidates <==> d == base || Overrides(rule, role, Elements(overlays[..i]), tier, d)
      {
        assert Elements(overlays[..i + 1]) == Elements(overlays[..i]) + {overlays[i]};
        if overlays[i] in rule.overlayOverrides {
          candidates := candidates + [rule.overlayOverrides[overlays[i]]];
        }
      }
      assert overlays[..|overlays|] == overlays;
      c := Highest(candidates);
    }

    /** The resolved class, which high complexity raises to STRONG. */
    method TargetClass(step: string, role: string, overlays: seq<string>, tier: string, complexity: string)
      returns (c: ModelClass)
      ensures IsTarget(step, role, overlays, tier, complexity, c)
    {
      c := ResolveClass(step, role, overlays, tier);
      if complexity == "high" && c != Strong {
        c := Strong;
      }
    }

    /** `select_model`: the target class or nothing. */
    method SelectModel(step: string, role: string, overlays: seq<string>, tier: string, complexity: string)
      returns (s: Selection)
      ensures exists target :: IsTarget(step, role, overlays, tier, complexity, target)
                               && s == SelectedAt(providers, target)
      ensures complexity == "high" ==> s == SelectedAt(providers, Strong)
    {
      var c := TargetClass(step, role, overlays, tier, complexity);
      match FindProvider(providers, c, {})
      case Some(p) => s := Chosen(p, []);
      case None => s := NoProvider(c);
    }

    ghost predicate IsTarget(step: string, role: string, overlays: seq<string>, tier: string, complexity: string,
                             target: ModelClass)
      reads this
    {
      if complexity == "high" then target == Strong
      else Resolves(rules, costRouting, step, role, Elements(overlays), tier, target)
    }

    method SelectWithFallback(step: string, role: string, overlays: seq<string>, tier: string, complexity: string,
                              failedProviders: seq<string>)
      returns (s: Selection)
      ensures exists target :: IsTarget(step, role, overlays, tier, complexity, target)
                               && s == Selected(providers, target, Elements(failedProviders))
      ensures complexity == "high" ==> s == Selected(providers, Strong, Elements(failedProviders))
    {
      var c := TargetClass(step, role, overlays, tier, complexity);
      s := WalkUp(c, Elements(failedProviders));
    }

    /** Tries the target class and then the higher ones, noting each exhausted class. */
    method WalkUp(target: ModelClass, failed: set<string>) returns (s: Selection)
      ensures s == Selected(providers, target, failed)
    {
      var chain: seq<string> := [];
      var found := FindProvider(providers, target, failed);
      if found.Some? {
        return Chosen(found.value, chain);
      }
      chain := chain + [ExhaustedLabel(target)];
      for k := Rank(target) + 1 to 3
        invariant chain == Labels(CLASS_ORDER[Rank(target)..k])
        invariant Selected(providers, target, failed) == SelectedFrom(providers, target, failed, k)
      {
        var higher := CLASS_ORDER[k];
        found := FindProvider(providers, higher, failed);
        if found.Some? {
          chain := chain + [EscalatedLabel(higher)];
          return Chosen(found.value, chain);
        }
        LabelsSnoc(Rank(target), k);
        chain := chain + [ExhaustedLabel(higher)];
      }
      s := NoProvider(target);
    }

    /** The agent's two-step resolution: the plain selection, then the fallback chain. */
    method ResolveProvider(step: string, role: string, overlays: seq<string>, tier: string, complexity: string)
      returns (provider: Option<Provider>)
      ensures exists target :: IsTarget(step, role, overlays, tier, complexity, target)
                               && provider == ProviderOf(Selected(providers, target, {}))
                               && (provider == None <==> !exists p :: p in providers && Usable(target, {})(p))
    {
      var s := SelectModel(step, role, overlays, tier, complexity);
      ghost var target :| IsTarget(step, role, overlays, tier, complexity, target)
                          && s == SelectedAt(providers, target);
      if s.NoProvider? {
        s := SelectAgain(step, role, overlays, tier, complexity, target);
      }
      TwoSteps(providers, target, s);
      provider := ProviderOf(s);
    }

    /** The second step looks for the same target class. */
    method SelectAgain(step: string, role: string, overlays: seq<string>, tier: string, complexity: string,
                       ghost target: ModelClass)
      returns (s: Selection)
      requires IsTarget(step, role, overlays, tier, complexity, target)
      ensures s == Selected(providers, target, {})
    {
      s := SelectWithFallback(step, role, overlays, tier, complexity, []);
      ghost var again :| IsTarget(step, role, overlays, tier, complexity, again)
                         && s == Selected(providers, again, Elements([]));
      TargetUnique(step, role, overlays, tier, complexity, target, again);
      assert Elements([]) == {};
    }

    lemma TargetUnique(step: string, role: string, overlays: seq<string>, tier: string, complexity: string,
                       c: ModelClass, d: ModelClass)
      requires IsTarget(step, role, overlays, tier, complexity, c)
      requires IsTarget(step, role, overlays, tier, complexity, d)
      ensures c == d
    {
      if complexity != "high" {
        ResolvesUnique(rules, costRouting, step, role, Elements(overlays), tier, c, d);
      }
    }
  }

  function ProviderOf(s: Selection): Option<Provider> {
    if s.Chosen? then Some(s.provider) else None
  }

  /** Where the plain selection finds a provider, the fallback finds the same at its first class. */
  lemma TwoSteps(ps: seq<Provider>, target: ModelClass, s: Selection)
    requires s == if SelectedAt(ps, target).Chosen? then SelectedAt(ps, target) else Selected(ps, target, {})
    ensures ProviderOf(s) == ProviderOf(Selected(ps, target, {}))
    ensures ProviderOf(s) == None <==> !exists p :: p in ps && Usable(target, {})(p)
  {
    assert SelectedAt(ps, target).Chosen? ==> Selected(ps, target, {}) == SelectedAt(ps, target);
    NoneUsable(ps, target);
  }

  /** A selection raises exactly when nothing at or above the class is enabled and left. */
  lemma NoneUsable(ps: seq<Provider>, target: ModelClass)
    ensures Selected(ps, target, {}).NoProvider? <==> !exists p :: p in ps && Usable(target, {})(p)
  {
    SelectionIsFirst(ps, target, {});
    var kept := Filter(Usable(target, {}), ps);
    forall p | p in ps && Usable(target, {})(p)
      ensures kept != []
    {
      FilterMember(Usable(target, {}), ps, p);
    }
    if kept != [] {
      FilterMember(Usable(target, {}), ps, kept[0]);
    }
  }

  function SelectedAt(ps: seq<Provider>, target: ModelClass): Selection {
    match FindProvider(ps, target, {})
    case Some(p) => Chosen(p, [])
    case None => NoProvider(target)
  }

  // ----- Draining the chain ------------------------------------------------------------

  lemma OrdersAreTotal()
    ensures TotalPreorder(ByPriority) && TotalPreorder(ByClassThenPriority)
  {}

  /** The usable providers in the order in which they should be handed out. */
  function Queue(ps: seq<Provider>, target: ModelClass, failed: set<string>): seq<Provider> {
    Sort(ByClassThenPriority, Filter(Usable(target, failed), ps))
  }

  function OfClass(c: ModelClass): Provider -> bool {
    (p: Provider) => p.modelClass == c
  }

  /** Looking for a provider of one class is taking the first of that class in the queue. */
  lemma FindIsFirstOfClass(ps: seq<Provider>, target: ModelClass, failed: set<string>, c: ModelClass)
    requires Rank(target) <= Rank(c)
    ensures var q := Filter(OfClass(c), Queue(ps, target, failed));
      FindProvider(ps, c, failed) == if q == [] then None else Some(q[0])
  {
    OrdersAreTotal();
    var candidates := Filter(Candidate(c, failed), ps);
    SortFilter(ByClassThenPriority, OfClass(c), Filter(Usable(target, failed), ps));
    FilterTwice(Usable(target, failed), OfClass(c), Candidate(c, failed), ps);
    forall p | p in candidates
      ensures p.modelClass == c
    {
      FilterMember(Candidate(c, failed), ps, p);
    }
    SortCongruent(ByClassThenPriority, ByPriority, candidates);
  }

  lemma FilterHead(p: Provider -> bool, s: seq<Provider>)
    requires s != [] && p(s[0])
    ensures Filter(p, s) != [] && Filter(p, s)[0] == s[0]
  {
    assert s == [s[0]] + s[1..];
    FilterConcat(p, [s[0]], s[1..]);
    assert [s[0]][..0] == [];
  }

  /** A selection is the head of the queue with the chain of its class; there is none
      exactly when the queue is empty. */
  lemma SelectionIsFirst(ps: seq<Provider>, target: ModelClass, failed: set<string>)
    ensures var q := Queue(ps, target, failed);
      if q == [] then Selected(ps, target, failed) == NoProvider(target)
      else Rank(target) <= Rank(q[0].modelClass)
           && Selected(ps, target, failed) == Chosen(q[0], ChainTo(target, q[0].modelClass))
  {
    QueueIsUsable(ps, target, failed);
    SelectionFrom(ps, target, failed, Rank(target));
  }

  lemma QueueIsUsable(ps: seq<Provider>, target: ModelClass, failed: set<string>)
    ensures forall p :: p in Queue(ps, target, failed) <==> p in ps && Usable(target, failed)(p)
  {
    forall p: Provider
      ensures p in Queue(ps, target, failed) <==> p in ps && Usable(target, failed)(p)
    {
      SortMember(ByClassThenPriority, Filter(Usable(target, failed), ps), p);
      FilterMember(Usable(target, failed), ps, p);
    }
  }

  lemma {:induction false} SelectionFrom(ps: seq<Provider>, target: ModelClass, failed: set<string>, from: nat)
    requires Rank(target) <= from <= 3
    requires forall p :: p in Queue(ps, target, failed) ==> Usable(target, failed)(p) && from <= Rank(p.modelClass)
    ensures var q := Queue(ps, target, failed);
      SelectedFrom(ps, target, failed, from)
      == if q == [] then NoProvider(target)
         else assert q[0] in q; Chosen(q[0], ChainTo(target, q[0].modelClass))
    decreases 3 - from
  {
    var q := Queue(ps, target, failed);
    if from == 3 {
      FilterAll(Usable(target, failed), q);
      FilterNone(Usable(target, failed), q);
    } else {
      var c := CLASS_ORDER[from];
      FindIsFirstOfClass(ps, target, failed, c);
      if q != [] && q[0].modelClass == c {
        FilterHead(OfClass(c), q);
      } else {
        NoneOfClass(ps, target, failed, c);
        SelectionFrom(ps, target, failed, from + 1);
      }
    }
  }

  lemma NoneOfClass(ps: seq<Provider>, target: ModelClass, failed: set<string>, c: ModelClass)
    requires forall p :: p in Queue(ps, target, failed) ==> Rank(c) <= Rank(p.modelClass)
    requires var q := Queue(ps, target, failed); q == [] || q[0].modelClass != c
    ensures forall p :: p in Queue(ps, target, failed) ==> Rank(c) < Rank(p.modelClass)
    ensures Filter(OfClass(c), Queue(ps, target, failed)) == []
  {
    var q := Queue(ps, target, failed);
    if q != [] {
      QueueStartsLowest(ps, target, failed);
      assert q[0] in q;
    }
    FilterNone(OfClass(c), q);
  }

  /** A selection names exactly the exhausted classes below the one it escalated to. */
  lemma ChainIsExact(ps: seq<Provider>, target: ModelClass, failed: set<string>, p: Provider, chain: seq<string>)
    requires Selected(ps, target, failed) == Chosen(p, chain)
    ensures Rank(target) <= Rank(p.modelClass) && chain == ChainTo(target, p.modelClass)
    ensures FindProvider(ps, p.modelClass, failed) == Some(p)
    ensures forall c :: Rank(target) <= Rank(c) < Rank(p.modelClass) ==> FindProvider(ps, c, failed) == None
  {
    SelectionIsFirst(ps, target, failed);
    var q := Queue(ps, target, failed);
    FindIsFirstOfClass(ps, target, failed, p.modelClass);
    FilterHead(OfClass(p.modelClass), q);
    forall c | Rank(target) <= Rank(c) < Rank(p.modelClass)
      ensures FindProvider(ps, c, failed) == None
    {
      FindIsFirstOfClass(ps, target, failed, c);
      QueueStartsLowest(ps, target, failed);
      FilterNone(OfClass(c), q);
    }
  }

  lemma QueueStartsLowest(ps: seq<Provider>, target: ModelClass, failed: set<string>)
    requires Queue(ps, target, failed) != []
    ensures var q := Queue(ps, target, failed);
      forall p :: p in q ==> Rank(q[0].modelClass) <= Rank(p.modelClass)
  {
    var q := Queue(ps, target, failed);
    OrdersAreTotal();
    SortSorts(ByClassThenPriority, Filter(Usable(target, failed), ps));
    forall p | p in q
      ensures Rank(q[0].modelClass) <= Rank(p.modelClass)
    {
      var i :| 0 <= i < |q| && q[i] == p;
      assert i > 0 ==> ByClassThenPriority(q[0], q[i]);
    }
  }

  function Others(id: string): Provider -> bool {
    (p: Provider) => p.providerId != id
  }

  /** Marking a handed-out provider as failed takes it, and nothing else, off the queue. */
  lemma FailingHeadPops(ps: seq<Provider>, target: ModelClass, failed: set<string>)
    requires DistinctIds(ps)
    requires Queue(ps, target, failed) != []
    ensures var q := Queue(ps, target, failed);
      Queue(ps, target, failed + {q[0].providerId}) == q[1..]
  {
    var q, kept := Queue(ps, target, failed), Filter(Usable(target, failed), ps);
    var id := q[0].providerId;
    assert Queue(ps, target, failed + {id}) == Filter(Others(id), q) by {
      OrdersAreTotal();
      FilterTwice(Usable(target, failed), Others(id), Usable(target, failed + {id}), ps);
      SortFilter(ByClassThenPriority, Others(id), kept);
    }
    HeadIdIsFresh(ps, target, failed);
    DropHead(q);
  }

  lemma DropHead(q: seq<Provider>)
    requires q != [] && forall p :: p in q[1..] ==> p.providerId != q[0].providerId
    ensures Filter(Others(q[0].providerId), q) == q[1..]
  {
    var id := q[0].providerId;
    assert q == [q[0]] + q[1..];
    FilterConcat(Others(id), [q[0]], q[1..]);
    assert [q[0]][..0] == [];
    FilterAll(Others(id), q[1..]);
  }

  lemma HeadIdIsFresh(ps: seq<Provider>, target: ModelClass, failed: set<string>)
    requires DistinctIds(ps)
    requires Queue(ps, target, failed) != []
    ensures var q := Queue(ps, target, failed);
      forall p :: p in q[1..] ==> p.providerId != q[0].providerId
  {
    var q := Queue(ps, target, failed);
    QueueIsUsable(ps, target, failed);
    QueuedOnce(ps, target, failed, q[0]);
    HeadOnce(q);
    forall p | p in q[1..]
      ensures p.providerId != q[0].providerId
    {
      assert p in q && q[0] in q;
    }
  }

  lemma QueuedOnce(ps: seq<Provider>, target: ModelClass, failed: set<string>, p: Provider)
    requires DistinctIds(ps)
    ensures multiset(Queue(ps, target, failed))[p] <= 1
  {
    OnceEach(ps, p);
    SortPermutes(ByClassThenPriority, Filter(Usable(target, failed), ps));
    FilterShrinks(Usable(target, failed), ps);
  }

  lemma HeadOnce(q: seq<Provider>)
    requires q != [] && multiset(q)[q[0]] <= 1
    ensures q[0] !in q[1..]
  {
    assert q == [q[0]] + q[1..];
  }

  lemma {:induction false} OnceEach(ps: seq<Provider>, p: Provider)
    requires DistinctIds(ps)
    ensures multiset(ps)[p] <= 1
  {
    if ps != [] {
      var init, last := ps[..|ps| - 1], ps[|ps| - 1];
      assert ps == init + [last];
      OnceEach(init, p);
      if p == last {
        assert p !in init;
      }
    }
  }

  lemma {:induction false} FilterShrinks(p: Provider -> bool, s: seq<Provider>)
    ensures multiset(Filter(p, s)) <= multiset(s)
  {
    if s != [] {
      assert s == s[..|s| - 1] + [s[|s| - 1]];
      FilterShrinks(p, s[..|s| - 1]);
    }
  }

  /** Asking again and again, each time with the provider just returned marked as failed,
      until nothing is left. */
  function Drain(ps: seq<Provider>, target: ModelClass, failed: set<string>): seq<Provider>
    requires DistinctIds(ps)
    decreases |Queue(ps, target, failed)|
  {
    match Selected(ps, target, failed)
    case NoProvider(_) => []
    case Chosen(p, _) =>
      SelectionIsFirst(ps, target, failed);
      FailingHeadPops(ps, target, failed);
      [p] + Drain(ps, target, failed + {p.providerId})
  }

  function Ids(ps: seq<Provider>): set<string> {
    set p | p in ps :: p.providerId
  }

  /** The drain law: the calls hand out the usable providers by class, then priority, then
      registration order; after that the selection raises. */
  lemma {:induction false} DrainIsQueue(ps: seq<Provider>, target: ModelClass, failed: set<string>)
    requires DistinctIds(ps)
    ensures Drain(ps, target, failed) == Queue(ps, target, failed)
    ensures Selected(ps, target, failed + Ids(Queue(ps, target, failed))) == NoProvider(target)
    decreases |Queue(ps, target, failed)|
  {
    SelectionIsFirst(ps, target, failed);
    var q := Queue(ps, target, failed);
    if q == [] {
      assert failed + Ids(q) == failed;
    } else {
      DrainStep(ps, target, failed);
      DrainIsQueue(ps, target, failed + {q[0].providerId});
      IdsOfQueue(q, failed);
    }
  }

  lemma DrainStep(ps: seq<Provider>, target: ModelClass, failed: set<string>)
    requires DistinctIds(ps) && Queue(ps, target, failed) != []
    ensures var q := Queue(ps, target, failed);
      && Queue(ps, target, failed + {q[0].providerId}) == q[1..]
      && Drain(ps, target, failed) == [q[0]] + Drain(ps, target, failed + {q[0].providerId})
      && q == [q[0]] + q[1..]
  {
    SelectionIsFirst(ps, target, failed);
    assert Queue(ps, target, failed + {Queue(ps, target, failed)[0].providerId}) == Queue(ps, target, failed)[1..] by {
      FailingHeadPops(ps, target, failed);
    }
    DrainUnfolds(ps, target, failed);
  }

  lemma DrainUnfolds(ps: seq<Provider>, target: ModelClass, failed: set<string>)
    requires DistinctIds(ps) && Selected(ps, target, failed).Chosen?
    ensures var p := Selected(ps, target, failed).provider;
            Drain(ps, target, failed) == [p] + Drain(ps, target, failed + {p.providerId})
  {}

  lemma IdsOfQueue(q: seq<Provider>, failed: set<string>)
    requires q != []
    ensures failed + {q[0].providerId} + Ids(q[1..]) == failed + Ids(q)
  {
    assert forall p :: p in q <==> p == q[0] || p in q[1..];
  }

  /** Each usable provider is handed out exactly once. */
  lemma DrainHandsOutEachOnce(ps: seq<Provider>, target: ModelClass, failed: set<string>, p: Provider)
    requires DistinctIds(ps)
    ensures multiset(Drain(ps, target, failed))[p]
         == if p in ps && p.enabled && Rank(p.modelClass) >= Rank(target) && p.providerId !in failed then 1 else 0
    ensures SortedBy(ByClassThenPriority, Drain(ps, target, failed))
  {
    var kept := Filter(Usable(target, failed), ps);
    DrainIsQueue(ps, target, failed);
    OrdersAreTotal();
    SortSorts(ByClassThenPriority, kept);
    SortPermutes(ByClassThenPriority, kept);
    FilterShrinks(Usable(target, failed), ps);
    OnceEach(ps, p);
    FilterMember(Usable(target, failed), ps, p);
    assert p in kept <==> multiset(kept)[p] > 0;
  }

  // ----- What is selected, in full -----------------------------------------------------

  /** The provider at index `i` may be handed out for the target class. */
  predicate IsOpen(ps: seq<Provider>, target: ModelClass, failed: set<string>, i: nat)
    requires i < |ps|
  {
    ps[i].enabled && Rank(ps[i].modelClass) >= Rank(target) && ps[i].providerId !in failed
  }

  /** Index `i` comes first: a lower class, or a lower priority number within it, or an earlier
      registration when both are the same. */
  predicate ComesFirst(ps: seq<Provider>, i: nat, j: nat)
    requires i < |ps| && j < |ps|
  {
    var a, b := ps[i], ps[j];
    || Rank(a.modelClass) < Rank(b.modelClass)
    || (a.modelClass == b.modelClass && a.priority < b.priority)
    || (a.modelClass == b.modelClass && a.priority == b.priority && i <= j)
  }

  function Registered(ps: seq<Provider>): (Provider, Provider) -> bool {
    (a: Provider, b: Provider) => IndexOf(ps, a.providerId) <= IndexOf(ps, b.providerId)
  }

  lemma IndexOfOwn(ps: seq<Provider>, i: nat)
    requires DistinctIds(ps) && i < |ps|
    ensures IndexOf(ps, ps[i].providerId) == i
  {}

  lemma RegisteredInOrder(ps: seq<Provider>)
    requires DistinctIds(ps)
    ensures SortedBy(Registered(ps), ps)
  {
    forall i: nat | i < |ps|
      ensures IndexOf(ps, ps[i].providerId) == i
    {
      IndexOfOwn(ps, i);
    }
  }

  /** The queue is sorted by class, then priority, then registration. */
  lemma QueueKeepsTies(ps: seq<Provider>, target: ModelClass, failed: set<string>)
    requires DistinctIds(ps)
    ensures SortedWithTies(ByClassThenPriority, Registered(ps), Queue(ps, target, failed))
  {
    OrdersAreTotal();
    RegisteredInOrder(ps);
    FilterSorted(Registered(ps), Usable(target, failed), ps);
    SortKeepsTies(ByClassThenPriority, Registered(ps), Filter(Usable(target, failed), ps));
  }

  lemma HeadComesFirst(ps: seq<Provider>, target: ModelClass, failed: set<string>, i: nat, j: nat)
    requires DistinctIds(ps) && i < |ps| && j < |ps| && IsOpen(ps, target, failed, j)
    requires var q := Queue(ps, target, failed); q != [] && q[0] == ps[i]
    ensures ComesFirst(ps, i, j)
  {
    var q := Queue(ps, target, failed);
    QueueIsUsable(ps, target, failed);
    QueueKeepsTies(ps, target, failed);
    assert ps[j] in q;
    var k :| 0 <= k < |q| && q[k] == ps[j];
    IndexOfOwn(ps, i);
    IndexOfOwn(ps, j);
    if k > 0 {
      assert ByClassThenPriority(q[0], q[k]);
    }
  }

  /** A selection raises iff no provider is enabled, of the class or a higher one, and not failed;
      otherwise it hands out the one that comes first. */
  lemma SelectionInFull(ps: seq<Provider>, target: ModelClass, failed: set<string>)
    requires DistinctIds(ps)
    ensures match Selected(ps, target, failed)
      case NoProvider(c) => c == target && forall j: nat :: j < |ps| ==> !IsOpen(ps, target, failed, j)
      case Chosen(p, _) =>
        exists i: nat :: i < |ps| && ps[i] == p && IsOpen(ps, target, failed, i)
                         && forall j: nat :: j < |ps| && IsOpen(ps, target, failed, j) ==> ComesFirst(ps, i, j)
  {
    var q := Queue(ps, target, failed);
    SelectionIsFirst(ps, target, failed);
    QueueIsUsable(ps, target, failed);
    if q == [] {
      forall j: nat | j < |ps|
        ensures !IsOpen(ps, target, failed, j)
      {
        assert Usable(target, failed)(ps[j]) <==> ps[j] in q;
      }
    } else {
      assert q[0] in q;
      var i: nat :| i < |ps| && ps[i] == q[0];
      forall j: nat | j < |ps| && IsOpen(ps, target, failed, j)
        ensures ComesFirst(ps, i, j)
      {
        HeadComesFirst(ps, target, failed, i, j);
      }
    }
  }

  const NAMES := ["fast", "balanced", "strong"]

  /** The chain of a selection in full: nothing at the target class; else one entry for each class
      from the target up that was exhausted, and one for the class escalated to. */
  lemma ChainInFull(ps: seq<Provider>, target: ModelClass, failed: set<string>, p: Provider, chain: seq<string>)
    requires Selected(ps, target, failed) == Chosen(p, chain)
    ensures p.modelClass == target ==> chain == []
    ensures p.modelClass != target ==>
      var t, r := Rank(target), Rank(p.modelClass);
      && t < r && |chain| == r - t + 1
      && chain[r - t] == "escalated:" + NAMES[r]
      && forall k :: 0 <= k < r - t ==> chain[k] == NAMES[t + k] + ":exhausted"
  {
    ChainIsExact(ps, target, failed, p, chain);
    if p.modelClass != target {
      ChainLabels(target, p.modelClass);
    }
  }

  lemma ChainLabels(target: ModelClass, c: ModelClass)
    requires Rank(target) < Rank(c)
    ensures var chain, t, r := ChainTo(target, c), Rank(target), Rank(c);
      && |chain| == r - t + 1
      && chain[r - t] == "escalated:" + NAMES[r]
      && forall k :: 0 <= k < r - t ==> chain[k] == NAMES[t + k] + ":exhausted"
  {
    assert forall d: ModelClass :: ClassName(d) == NAMES[Rank(d)];
    assert forall k :: 0 <= k < 3 ==> Rank(CLASS_ORDER[k]) == k;
  }

  /** The rule in force for a step is the last one given for it. */
  lemma {:induction false} LastRuleCounts(rules: seq<Rule>, step: string)
    ensures step in RulesByStep(rules) <==> exists r :: r in rules && r.step == step
    ensures forall k :: 0 <= k < |rules| && rules[k].step == step
                        && (forall l :: k < l < |rules| ==> rules[l].step != step)
                        ==> step in RulesByStep(rules) && RulesByStep(rules)[step] == rules[k]
  {
    if rules != [] {
      var init, last := rules[..|rules| - 1], rules[|rules| - 1];
      assert rules == init + [last];
      LastRuleCounts(init, step);
      if last.step == step {
        assert last in rules;
      } else {
        assert forall r :: r in rules && r.step == step <==> r in init && r.step == step;
        assert forall l :: 0 <= l < |init| ==> init[l] == rules[l];
      }
    }
  }

  lemma IndexSnoc(ps: seq<Provider>, last: Provider, id: string)
    ensures var i := IndexOf(ps, id);
      IndexOf(ps + [last], id) == if i < |ps| then i else if last.providerId == id then |ps| else |ps| + 1
  {
    assert (ps + [last])[..|ps|] == ps;
  }

  /** Every id is kept. */
  ghost predicate IdsKept(ps: seq<Provider>, kept: seq<Provider>) {
    forall j :: 0 <= j < |ps| ==> IndexOf(kept, ps[j].providerId) < |kept|
  }

  /** The kept ids stand in the order in which they were first given. */
  ghost predicate FirstSeen(ps: seq<Provider>, kept: seq<Provider>) {
    forall i, j :: 0 <= i <= j < |kept| ==>
      IndexOf(ps, kept[i].providerId) <= IndexOf(ps, kept[j].providerId) < |ps|
  }

  lemma SameIds(kept: seq<Provider>, more: seq<Provider>, id: string)
    requires |more| == |kept| && forall i :: 0 <= i < |kept| ==> more[i].providerId == kept[i].providerId
    ensures IndexOf(more, id) == IndexOf(kept, id)
  {
    var i, j := IndexOf(kept, id), IndexOf(more, id);
    assert i < |kept| ==> more[i].providerId == kept[i].providerId;
    assert j < |kept| ==> more[j].providerId == kept[j].providerId;
  }

  lemma {:induction false} AllIdsKept(ps: seq<Provider>)
    ensures IdsKept(ps, ById(ps))
  {
    if ps != [] {
      var init, last := ps[..|ps| - 1], ps[|ps| - 1];
      var before := ById(init);
      AllIdsKept(init);
      forall j | 0 <= j < |ps|
        ensures IndexOf(ById(ps), ps[j].providerId) < |ById(ps)|
      {
        assert j < |init| ==> ps[j] == init[j];
        OneIdKept(before, last, ps[j].providerId);
      }
    }
  }

  lemma OneIdKept(before: seq<Provider>, last: Provider, id: string)
    requires IndexOf(before, id) < |before| || id == last.providerId
    ensures var i := IndexOf(before, last.providerId);
      var after := if i < |before| then before[i := last] else before + [last];
      IndexOf(after, id) < |after|
  {
    var i := IndexOf(before, last.providerId);
    if i < |before| {
      SameIds(before, before[i := last], id);
    } else {
      IndexSnoc(before, last, id);
    }
  }

  /** Registration keeps the order in which the ids were first given, though a later provider replaces
      an earlier one of the same id. */
  lemma {:induction false} FirstSeenOrder(ps: seq<Provider>)
    ensures FirstSeen(ps, ById(ps))
  {
    if ps != [] {
      var init, last := ps[..|ps| - 1], ps[|ps| - 1];
      assert ps == init + [last];
      var before, after := ById(init), ById(ps);
      FirstSeenOrder(init);
      forall i | 0 <= i < |before|
        ensures IndexOf(ps, after[i].providerId) == IndexOf(init, before[i].providerId)
      {
        IndexSnoc(init, last, before[i].providerId);
        assert FirstSeenAt(init, before, i);
      }
      if |after| > |before| {
        IndexSnoc(init, last, last.providerId);
        NewIdIsNew(init, last.providerId);
      }
    }
  }

  predicate FirstSeenAt(ps: seq<Provider>, kept: seq<Provider>, i: nat) {
    i < |kept| && IndexOf(ps, kept[i].providerId) < |ps|
  }

  lemma NewIdIsNew(ps: seq<Provider>, id: string)
    requires IndexOf(ById(ps), id) == |ById(ps)|
    ensures IndexOf(ps, id) == |ps|
  {
    AllIdsKept(ps);
  }
}
