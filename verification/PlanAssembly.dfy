/** The plan itself: expert outputs flattened into numbered steps, escalations and refinement
    for unresolved conflicts, the hand-off to QA and the provenance record. */
module PlanAssembly {
  import opened Wrappers
  import opened Text
  import Sorting
  import opened Distinctness
  import opened Assembler

  datatype PlanStep = PlanStep(stepId: nat, description: string, sourceExpert: string, isCheckpoint: bool)

  datatype RiskItem = RiskItem(description: string, sourceExpert: string, mitigation: string, severity: string)

  datatype QaMapping = QaMapping(criterion: string, validationSteps: seq<string>, sourceExperts: seq<string>)

  datatype Escalation = Escalation(reason: string, riskDomain: string)

  datatype Refinement = Refinement(questions: seq<string>, triggeringConflict: string)

  datatype Consulted = Consulted(id: string, version: int, name: string)

  datatype Decision = Decision(decision: string, source: string)

  datatype Provenance = Provenance(expertsConsulted: seq<Consulted>, decisions: seq<Decision>)

  datatype Plan = Plan(steps: seq<PlanStep>, conflicts: seq<Conflict>, escalations: seq<Escalation>,
                       refinement: Option<Refinement>, risks: seq<RiskItem>, qaHandoff: seq<QaMapping>,
                       provenance: Provenance)

  // ----- What the experts contribute ---------------------------------------------------

  /** One line of an expert's output, with the expert's name. */
  datatype Entry = Entry(text: string, expert: string)

  type Pick = ExpertOutput -> seq<string>

  function Recommendations(o: ExpertOutput): seq<string> { o.recommendations }

  function Validations(o: ExpertOutput): seq<string> { o.validations }

  function Risks(o: ExpertOutput): seq<string> { o.risks }

  function Signed(expert: string, texts: seq<string>): (r: seq<Entry>)
    ensures |r| == |texts|
    ensures forall k :: 0 <= k < |r| ==> r[k] == Entry(texts[k], expert)
  {
    seq(|texts|, k requires 0 <= k < |texts| => Entry(texts[k], expert))
  }

  /** All lines of one kind, expert after expert. */
  function Contributed(xs: seq<ExpertOutput>, pick: Pick): seq<Entry> {
    if xs == [] then []
    else Contributed(xs[..|xs| - 1], pick) + Signed(xs[|xs| - 1].expertName, pick(xs[|xs| - 1]))
  }

  /** How many lines the first `i` experts contribute. */
  function Offset(xs: seq<ExpertOutput>, pick: Pick, i: nat): nat
    requires i <= |xs|
  {
    if i == 0 then 0 else Offset(xs, pick, i - 1) + |pick(xs[i - 1])|
  }

  lemma ContributedSnoc(xs: seq<ExpertOutput>, pick: Pick, i: nat)
    requires i < |xs|
    ensures Contributed(xs[..i + 1], pick) == Contributed(xs[..i], pick) + Signed(xs[i].expertName, pick(xs[i]))
  {
    assert xs[..i + 1][..i] == xs[..i];
  }

  lemma {:induction false} ContributedPrefix(xs: seq<ExpertOutput>, pick: Pick, i: nat)
    requires i <= |xs|
    ensures |Contributed(xs[..i], pick)| == Offset(xs, pick, i)
    ensures Contributed(xs[..i], pick) <= Contributed(xs, pick)
    decreases |xs| - i, i
  {
    if i == |xs| {
      assert xs[..i] == xs;
      ContributedLength(xs, pick, i);
    } else {
      ContributedPrefix(xs, pick, i + 1);
      ContributedSnoc(xs, pick, i);
    }
  }

  lemma {:induction false} ContributedLength(xs: seq<ExpertOutput>, pick: Pick, i: nat)
    requires i <= |xs|
    ensures |Contributed(xs[..i], pick)| == Offset(xs, pick, i)
    decreases 0, i
  {
    if i > 0 {
      ContributedLength(xs, pick, i - 1);
      ContributedSnoc(xs, pick, i - 1);
    }
  }

  /** Line `j` of expert `i` sits behind everything the earlier experts contribute. */
  lemma ContributedAt(xs: seq<ExpertOutput>, pick: Pick, i: nat, j: nat)
    requires i < |xs| && j < |pick(xs[i])|
    ensures Offset(xs, pick, i) + j < |Contributed(xs, pick)|
    ensures Contributed(xs, pick)[Offset(xs, pick, i) + j] == Entry(pick(xs[i])[j], xs[i].expertName)
  {
    ContributedPrefix(xs, pick, i + 1);
    ContributedSnoc(xs, pick, i);
    ContributedLength(xs, pick, i);
    var all := Contributed(xs, pick);
    assert Contributed(xs[..i + 1], pick)[Offset(xs, pick, i) + j] == all[Offset(xs, pick, i) + j];
  }

  lemma {:induction false} OffsetMonotone(xs: seq<ExpertOutput>, pick: Pick, i: nat, k: nat)
    requires i < k <= |xs|
    ensures Offset(xs, pick, i) + |pick(xs[i])| <= Offset(xs, pick, k)
  {
    if i < k - 1 {
      OffsetMonotone(xs, pick, i, k - 1);
    }
  }

  /** Line `j` of expert `i` is contribution `k`. */
  predicate Sits(xs: seq<ExpertOutput>, pick: Pick, i: nat, j: nat, k: nat) {
    i < |xs| && j < |pick(xs[i])| && k == Offset(xs, pick, i) + j
  }

  /** Every contributed line comes from exactly one line of one expert. */
  lemma {:induction false} Locate(xs: seq<ExpertOutput>, pick: Pick, n: nat, k: nat) returns (i: nat, j: nat)
    requires n <= |xs| && k < Offset(xs, pick, n)
    ensures i < n && Sits(xs, pick, i, j, k)
    ensures forall i': nat, j': nat :: Sits(xs, pick, i', j', k) ==> i' == i && j' == j
  {
    if k >= Offset(xs, pick, n - 1) {
      i, j := n - 1, k - Offset(xs, pick, n - 1);
    } else {
      i, j := Locate(xs, pick, n - 1, k);
    }
    forall i': nat, j': nat | Sits(xs, pick, i', j', k)
      ensures i' == i && j' == j
    {
      if i' < i {
        OffsetMonotone(xs, pick, i', i);
      } else if i < i' {
        OffsetMonotone(xs, pick, i, i');
      }
    }
  }

  // ----- Steps -------------------------------------------------------------------------

  function Checkpoint(text: string): string {
    "Checkpoint: " + text
  }

  /** Step `k` of the plan: first the recommendations, then the validations as checkpoints. */
  function StepAt(recs: seq<Entry>, vals: seq<Entry>, k: nat): PlanStep
    requires k < |recs| + |vals|
  {
    if k < |recs| then PlanStep(k + 1, recs[k].text, recs[k].expert, false)
    else
      var v := vals[k - |recs|];
      PlanStep(k + 1, Checkpoint(v.text), v.expert, true)
  }

  ghost predicate StepsFor(recs: seq<Entry>, vals: seq<Entry>, steps: seq<PlanStep>) {
    && |steps| == |recs| + |vals|
    && forall k :: 0 <= k < |steps| ==> steps[k] == StepAt(recs, vals, k)
  }

  lemma RecommendationStep(recs: seq<Entry>, e: Entry, steps: seq<PlanStep>)
    requires StepsFor(recs, [], steps)
    ensures StepsFor(recs + [e], [], steps + [PlanStep(|steps| + 1, e.text, e.expert, false)])
  {}

  lemma CheckpointStep(recs: seq<Entry>, vals: seq<Entry>, e: Entry, steps: seq<PlanStep>)
    requires StepsFor(recs, vals, steps)
    ensures StepsFor(recs, vals + [e], steps + [PlanStep(|steps| + 1, Checkpoint(e.text), e.expert, true)])
  {}

  method AddRecommendations(xs: seq<ExpertOutput>) returns (steps: seq<PlanStep>, counter: nat)
    ensures counter == |steps|
    ensures StepsFor(Contributed(xs, Recommendations), [], steps)
  {
    steps, counter := [], 0;
    for i := 0 to |xs|
      invariant counter == |steps|
      invariant StepsFor(Contributed(xs[..i], Recommendations), [], steps)
    {
      ContributedSnoc(xs, Recommendations, i);
      ghost var earlier := Contributed(xs[..i], Recommendations);
      ghost var own := Signed(xs[i].expertName, xs[i].recommendations);
      assert earlier + own[..0] == earlier;
      for j := 0 to |xs[i].recommendations|
        invariant counter == |steps|
        invariant StepsFor(earlier + own[..j], [], steps)
      {
        Sorting.AppendTake(earlier, own, j);
        RecommendationStep(earlier + own[..j], own[j], steps);
        counter := counter + 1;
        steps := steps + [PlanStep(counter, xs[i].recommendations[j], xs[i].expertName, false)];
      }
      assert own[..|own|] == own;
    }
    assert xs[..|xs|] == xs;
  }

  method AddCheckpoints(xs: seq<ExpertOutput>, ghost recs: seq<Entry>, given: seq<PlanStep>, start: nat)
    returns (steps: seq<PlanStep>)
    requires StepsFor(recs, [], given) && start == |given|
    ensures StepsFor(recs, Contributed(xs, Validations), steps)
  {
    steps := given;
    var counter := start;
    for i := 0 to |xs|
      invariant counter == |steps|
      invariant StepsFor(recs, Contributed(xs[..i], Validations), steps)
    {
      ContributedSnoc(xs, Validations, i);
      ghost var earlier := Contributed(xs[..i], Validations);
      ghost var own := Signed(xs[i].expertName, xs[i].validations);
      assert earlier + own[..0] == earlier;
      for j := 0 to |xs[i].validations|
        invariant counter == |steps|
        invariant StepsFor(recs, earlier + own[..j], steps)
      {
        Sorting.AppendTake(earlier, own, j);
        CheckpointStep(recs, earlier + own[..j], own[j], steps);
        counter := counter + 1;
        steps := steps + [PlanStep(counter, Checkpoint(xs[i].validations[j]), xs[i].expertName, true)];
      }
      assert own[..|own|] == own;
    }
    assert xs[..|xs|] == xs;
  }

  predicate IsDecision(s: PlanStep) { !s.isCheckpoint }

  lemma StepKind(recs: seq<Entry>, vals: seq<Entry>, steps: seq<PlanStep>, k: nat)
    requires StepsFor(recs, vals, steps) && k < |steps|
    ensures IsDecision(steps[k]) <==> k < |recs|
  {
    assert steps[k] == StepAt(recs, vals, k);
  }

  lemma KeepFront(steps: seq<PlanStep>, n: nat)
    requires n <= |steps|
    requires forall k :: 0 <= k < |steps| ==> (IsDecision(steps[k]) <==> k < n)
    ensures Sorting.Filter(IsDecision, steps) == steps[..n]
  {
    var front, back := steps[..n], steps[n..];
    assert steps == front + back;
    Sorting.FilterConcat(IsDecision, front, back);
    assert Sorting.Filter(IsDecision, front) == front by {
      Sorting.FilterAll(IsDecision, front);
    }
    assert Sorting.Filter(IsDecision, back) == [] by {
      Sorting.FilterNone(IsDecision, back);
    }
  }

  /** The steps that are not checkpoints are the recommendations, in order. */
  lemma DecisionSteps(recs: seq<Entry>, vals: seq<Entry>, steps: seq<PlanStep>)
    requires StepsFor(recs, vals, steps)
    ensures Sorting.Filter(IsDecision, steps) == steps[..|recs|]
  {
    forall k | 0 <= k < |steps|
      ensures IsDecision(steps[k]) <==> k < |recs|
    {
      StepKind(recs, vals, steps, k);
    }
    KeepFront(steps, |recs|);
  }

  // ----- Escalation and refinement -----------------------------------------------------

  function HighRiskTerms(): set<string> {
    {"security", "compliance", "billing", "partner", "migration", "destructive"}
  }

  function ConflictText(f: Format, c: Conflict): string {
    f.lower(c.expertA + " " + c.expertB + " " + c.description)
  }

  predicate Touches(f: Format, c: Conflict, term: string) {
    term in HighRiskTerms() && Contains(ConflictText(f, c), term)
  }

  predicate HighRisk(f: Format, c: Conflict) {
    exists term :: term in HighRiskTerms() && Touches(f, c, term)
  }

  /** The six domains whose conflicts go to a human, and where they are looked for. */
  lemma HighRiskInFull(f: Format, c: Conflict, term: string)
    ensures var text := f.lower(c.expertA + " " + c.expertB + " " + c.description);
      && (HighRisk(f, c) <==>
            || Contains(text, "security") || Contains(text, "compliance") || Contains(text, "billing")
            || Contains(text, "partner") || Contains(text, "migration") || Contains(text, "destructive"))
      && (Touches(f, c, term) <==>
            && (|| term == "security" || term == "compliance" || term == "billing" || term == "partner"
                || term == "migration" || term == "destructive")
            && Contains(text, term))
  {
    if HighRisk(f, c) {
      var t :| t in HighRiskTerms() && Touches(f, c, t);
    }
    assert "security" in HighRiskTerms() && "compliance" in HighRiskTerms() && "billing" in HighRiskTerms();
    assert "partner" in HighRiskTerms() && "migration" in HighRiskTerms() && "destructive" in HighRiskTerms();
    var text := ConflictText(f, c);
    assert Touches(f, c, "security") <==> Contains(text, "security");
    assert Touches(f, c, "compliance") <==> Contains(text, "compliance");
    assert Touches(f, c, "billing") <==> Contains(text, "billing");
    assert Touches(f, c, "partner") <==> Contains(text, "partner");
    assert Touches(f, c, "migration") <==> Contains(text, "migration");
    assert Touches(f, c, "destructive") <==> Contains(text, "destructive");
  }

  /** The terms are tried in no particular order, so any that occurs may be named. */
  method DetectDomain(f: Format, c: Conflict) returns (domain: Option<string>)
    ensures domain.Some? <==> HighRisk(f, c)
    ensures domain.Some? ==> Touches(f, c, domain.value)
  {
    var left := HighRiskTerms();
    while left != {}
      invariant left <= HighRiskTerms()
      invariant forall term :: term in HighRiskTerms() && term !in left ==> !Touches(f, c, term)
      decreases left
    {
      var term :| term in left;
      if Contains(ConflictText(f, c), term) {
        return Some(term);
      }
      left := left - {term};
    }
    domain := None;
  }

  /** One escalation for each high-risk conflict, in order, and none for the others. */
  ghost predicate EscalationsFor(f: Format, cs: seq<Conflict>, es: seq<Escalation>) {
    if cs == [] then es == []
    else
      var init, c := cs[..|cs| - 1], cs[|cs| - 1];
      if HighRisk(f, c) then
        && es != [] && es[|es| - 1].reason == c.description && Touches(f, c, es[|es| - 1].riskDomain)
        && EscalationsFor(f, init, es[..|es| - 1])
      else EscalationsFor(f, init, es)
  }

  method Escalate(f: Format, unresolved: seq<Conflict>) returns (es: seq<Escalation>)
    ensures EscalationsFor(f, unresolved, es)
  {
    es := [];
    for i := 0 to |unresolved|
      invariant EscalationsFor(f, unresolved[..i], es)
    {
      assert unresolved[..i + 1][..i] == unresolved[..i];
      var domain := DetectDomain(f, unresolved[i]);
      if domain.Some? {
        ghost var before := es;
        es := es + [Escalation(unresolved[i].description, domain.value)];
        assert es[..|es| - 1] == before;
      }
    }
    assert unresolved[..|unresolved|] == unresolved;
  }

  ghost predicate Increasing(at: seq<nat>) {
    forall k, l :: 0 <= k < l < |at| ==> at[k] < at[l]
  }

  ghost predicate Raises(f: Format, c: Conflict, e: Escalation) {
    e.reason == c.description && Touches(f, c, e.riskDomain)
  }

  /** The positions `at` lead each escalation back to its conflict, and hit all high-risk ones. */
  ghost predicate Traced(f: Format, cs: seq<Conflict>, es: seq<Escalation>, at: seq<nat>) {
    && |at| == |es| && Increasing(at)
    && (forall k :: 0 <= k < |es| ==> at[k] < |cs| && Raises(f, cs[at[k]], es[k]))
    && (forall i: nat :: i < |cs| ==> (i in at <==> HighRisk(f, cs[i])))
  }

  lemma TracedQuiet(f: Format, cs: seq<Conflict>, es: seq<Escalation>, at: seq<nat>, c: Conflict)
    requires Traced(f, cs, es, at) && !HighRisk(f, c)
    ensures Traced(f, cs + [c], es, at)
  {
    assert forall k :: 0 <= k < |at| ==> at[k] < |cs|;
  }

  lemma TracedRaised(f: Format, cs: seq<Conflict>, es: seq<Escalation>, at: seq<nat>, c: Conflict, e: Escalation)
    requires Traced(f, cs, es, at) && HighRisk(f, c) && Raises(f, c, e)
    ensures Traced(f, cs + [c], es + [e], at + [|cs|])
  {
    forall i: nat | i < |cs|
      ensures i in at + [|cs|] <==> HighRisk(f, (cs + [c])[i])
    {
      assert (cs + [c])[i] == cs[i];
    }
    assert (at + [|cs|])[|at|] == |cs|;
  }

  /** The escalations are a subsequence of the unresolved conflicts: exactly the high-risk ones. */
  lemma {:induction false} EscalationsAreSubsequence(f: Format, cs: seq<Conflict>, es: seq<Escalation>)
    returns (at: seq<nat>)
    requires EscalationsFor(f, cs, es)
    ensures Traced(f, cs, es, at)
  {
    if cs == [] {
      at := [];
    } else {
      var init, c := cs[..|cs| - 1], cs[|cs| - 1];
      assert cs == init + [c];
      if HighRisk(f, c) {
        var before, e := es[..|es| - 1], es[|es| - 1];
        assert es == before + [e];
        var rest := EscalationsAreSubsequence(f, init, before);
        TracedRaised(f, init, before, rest, c, e);
        at := rest + [|init|];
      } else {
        at := EscalationsAreSubsequence(f, init, es);
        TracedQuiet(f, init, es, at, c);
      }
    }
  }

  predicate IsUnresolved(c: Conflict) { c.resolution == Unresolved }

  function UnresolvedOf(conflicts: seq<Conflict>): seq<Conflict> {
    Sorting.Filter(IsUnresolved, conflicts)
  }

  function Question(c: Conflict): string {
    "Conflict between " + c.expertA + " and " + c.expertB + ": " + c.description
  }

  /** Refinement is requested iff a conflict is unresolved, with one question for each. */
  ghost predicate RefinementFor(conflicts: seq<Conflict>, r: Option<Refinement>) {
    && (r.Some? <==> exists c :: c in conflicts && c.resolution == Unresolved)
    && (r.Some? ==>
          var u := UnresolvedOf(conflicts);
          && u != [] && |r.value.questions| == |u| && r.value.triggeringConflict == u[0].description
          && forall k :: 0 <= k < |u| ==>
               r.value.questions[k]
               == "Conflict between " + u[k].expertA + " and " + u[k].expertB + ": " + u[k].description)
  }

  method RequestRefinement(conflicts: seq<Conflict>) returns (r: Option<Refinement>)
    ensures RefinementFor(conflicts, r)
  {
    var unresolved := UnresolvedOf(conflicts);
    forall c
      ensures c in unresolved <==> c in conflicts && IsUnresolved(c)
    {
      Sorting.FilterMember(IsUnresolved, conflicts, c);
    }
    if unresolved == [] {
      return None;
    }
    assert unresolved[0] in unresolved;
    var questions := seq(|unresolved|, k requires 0 <= k < |unresolved| => Question(unresolved[k]));
    r := Some(Refinement(questions, unresolved[0].description));
  }

  // ----- Hand-off to QA ----------------------------------------------------------------

  function Keywords(s: string): set<string> {
    set w | w in Words(s) && |w| >= 4
  }

  predicate HasKeywordOverlap(a: string, b: string) {
    Keywords(a) * Keywords(b) != {}
  }

  predicate Serves(f: Format, criterion: string, e: Entry) {
    HasKeywordOverlap(f.lower(criterion), f.lower(e.text))
  }

  function Server(f: Format, criterion: string): Entry -> bool {
    e => Serves(f, criterion, e)
  }

  /** The validations that share a keyword with a criterion, in expert order. */
  function Matching(f: Format, xs: seq<ExpertOutput>, criterion: string): seq<Entry> {
    Sorting.Filter(Server(f, criterion), Contributed(xs, Validations))
  }

  function Texts(es: seq<Entry>): (r: seq<string>)
    ensures |r| == |es| && forall k :: 0 <= k < |r| ==> r[k] == es[k].text
  {
    seq(|es|, k requires 0 <= k < |es| => es[k].text)
  }

  /** The experts of some entries, each listed once. */
  ghost predicate ExpertsOf(es: seq<Entry>, names: seq<string>) {
    && Distinct(names)
    && (forall e :: e in es ==> e.expert in names)
    && (forall n :: n in names ==> exists e :: e in es && e.expert == n)
  }

  /** The mapping of one criterion: its matching validations and their experts, or a generic step. */
  ghost predicate MappingFor(f: Format, xs: seq<ExpertOutput>, criterion: string, m: QaMapping) {
    var found := Matching(f, xs, criterion);
    && m.criterion == criterion
    && m.validationSteps != []
    && m.validationSteps == (if found == [] then ["Validate: " + criterion] else Texts(found))
    && ExpertsOf(found, m.sourceExperts)
  }

  lemma ExpertsSnoc(es: seq<Entry>, e: Entry, names: seq<string>)
    requires ExpertsOf(es, names)
    ensures ExpertsOf(es + [e], if e.expert in names then names else names + [e.expert])
  {
    var more := if e.expert in names then names else names + [e.expert];
    forall n | n in more
      ensures exists x :: x in es + [e] && x.expert == n
    {
      if n in names {
        var x :| x in es && x.expert == n;
        assert x in es + [e];
      } else {
        assert e in es + [e];
      }
    }
  }

  lemma TextsSnoc(es: seq<Entry>, e: Entry)
    ensures Texts(es + [e]) == Texts(es) + [e.text]
  {}

  method MapCriterion(f: Format, xs: seq<ExpertOutput>, criterion: string) returns (m: QaMapping)
    ensures MappingFor(f, xs, criterion, m)
  {
    var steps, experts := [], [];
    var lowered := f.lower(criterion);
    ghost var keep := Server(f, criterion);
    ghost var found: seq<Entry> := [];
    for i := 0 to |xs|
      invariant found == Sorting.Filter(keep, Contributed(xs[..i], Validations))
      invariant steps == Texts(found) && ExpertsOf(found, experts)
    {
      ContributedSnoc(xs, Validations, i);
      ghost var earlier := Contributed(xs[..i], Validations);
      ghost var own := Signed(xs[i].expertName, xs[i].validations);
      assert earlier + own[..0] == earlier;
      for j := 0 to |xs[i].validations|
        invariant found == Sorting.Filter(keep, earlier + own[..j])
        invariant steps == Texts(found) && ExpertsOf(found, experts)
      {
        Sorting.AppendTake(earlier, own, j);
        Sorting.FilterSnoc(keep, earlier + own[..j], own[j]);
        var validation := xs[i].validations[j];
        if HasKeywordOverlap(lowered, f.lower(validation)) {
          TextsSnoc(found, own[j]);
          ExpertsSnoc(found, own[j], experts);
          found := found + [own[j]];
          steps := steps + [validation];
          if xs[i].expertName !in experts {
            experts := experts + [xs[i].expertName];
          }
        }
      }
      assert own[..|own|] == own;
    }
    assert xs[..|xs|] == xs;
    if steps == [] {
      steps := ["Validate: " + criterion];
    }
    m := QaMapping(criterion, steps, experts);
  }

  /** One mapping per criterion, in order. */
  ghost predicate HandoffFor(f: Format, xs: seq<ExpertOutput>, criteria: seq<string>, ms: seq<QaMapping>) {
    |ms| == |criteria| && forall k :: 0 <= k < |criteria| ==> MappingFor(f, xs, criteria[k], ms[k])
  }

  lemma HandoffSnoc(f: Format, xs: seq<ExpertOutput>, criteria: seq<string>, ms: seq<QaMapping>, c: string,
                    m: QaMapping)
    requires HandoffFor(f, xs, criteria, ms) && MappingFor(f, xs, c, m)
    ensures HandoffFor(f, xs, criteria + [c], ms + [m])
  {}

  method BuildQaHandoff(f: Format, criteria: seq<string>, xs: seq<ExpertOutput>) returns (mappings: seq<QaMapping>)
    ensures HandoffFor(f, xs, criteria, mappings)
  {
    mappings := [];
    for i := 0 to |criteria|
      invariant HandoffFor(f, xs, criteria[..i], mappings)
    {
      var m := MapCriterion(f, xs, criteria[i]);
      HandoffSnoc(f, xs, criteria[..i], mappings, criteria[i], m);
      Sorting.TakeSnoc(criteria, i);
      mappings := mappings + [m];
    }
    assert criteria[..|criteria|] == criteria;
  }

  /** A validation serves a criterion exactly when the two share a word of four or more letters. */
  lemma OverlapIsSharedWord(a: string, b: string)
    ensures HasKeywordOverlap(a, b) <==> exists w :: w in Words(a) && w in Words(b) && |w| >= 4
  {
    if HasKeywordOverlap(a, b) {
      var w :| w in Keywords(a) * Keywords(b);
      assert w in Words(a) && w in Words(b);
    }
    forall w | w in Words(a) && w in Words(b) && |w| >= 4
      ensures HasKeywordOverlap(a, b)
    {
      assert w in Keywords(a) * Keywords(b);
    }
  }

  /** The two texts have a word of four or more characters in common. */
  ghost predicate Shares(a: string, b: string) {
    exists w :: w in Words(a) && w in Words(b) && |w| >= 4
  }

  /** Validation `j` of expert `i`, who bears this name, serves the criterion. */
  ghost predicate Earns(f: Format, xs: seq<ExpertOutput>, criterion: string, name: string, i: nat, j: nat) {
    && i < |xs| && j < |xs[i].validations| && xs[i].expertName == name
    && Shares(f.lower(criterion), f.lower(xs[i].validations[j]))
  }

  lemma CreditIsEarned(f: Format, xs: seq<ExpertOutput>, criterion: string, e: Entry) returns (i: nat, j: nat)
    requires e in Matching(f, xs, criterion)
    ensures Earns(f, xs, criterion, e.expert, i, j) && xs[i].validations[j] == e.text
  {
    var all := Contributed(xs, Validations);
    Sorting.FilterMember(Server(f, criterion), all, e);
    var k: nat :| k < |all| && all[k] == e;
    ContributedLength(xs, Validations, |xs|);
    assert xs[..|xs|] == xs;
    i, j := Locate(xs, Validations, |xs|, k);
    ContributedAt(xs, Validations, i, j);
    OverlapIsSharedWord(f.lower(criterion), f.lower(e.text));
  }

  lemma EarnedIsCredited(f: Format, xs: seq<ExpertOutput>, criterion: string, name: string, i: nat, j: nat)
    requires Earns(f, xs, criterion, name, i, j)
    ensures Entry(xs[i].validations[j], name) in Matching(f, xs, criterion)
  {
    ContributedAt(xs, Validations, i, j);
    OverlapIsSharedWord(f.lower(criterion), f.lower(xs[i].validations[j]));
    var e := Entry(xs[i].validations[j], name);
    assert e in Contributed(xs, Validations);
    Sorting.FilterMember(Server(f, criterion), Contributed(xs, Validations), e);
  }

  /** An expert is credited with a criterion iff one of its own validations serves it. */
  lemma CreditedExperts(f: Format, xs: seq<ExpertOutput>, criterion: string, m: QaMapping, name: string)
    requires MappingFor(f, xs, criterion, m)
    ensures name in m.sourceExperts <==> exists i: nat, j: nat :: Earns(f, xs, criterion, name, i, j)
  {
    if name in m.sourceExperts {
      var e :| e in Matching(f, xs, criterion) && e.expert == name;
      var i, j := CreditIsEarned(f, xs, criterion, e);
    }
    forall i: nat, j: nat | Earns(f, xs, criterion, name, i, j)
      ensures name in m.sourceExperts
    {
      EarnedIsCredited(f, xs, criterion, name, i, j);
    }
  }

  /** The steps of a mapping are validations that share a word with the criterion, each of them, and
      nothing else; only when there is none, the criterion itself is to be validated. */
  lemma MappedSteps(f: Format, xs: seq<ExpertOutput>, criterion: string, m: QaMapping)
    requires MappingFor(f, xs, criterion, m)
    ensures var served := exists i: nat, j: nat, name :: Earns(f, xs, criterion, name, i, j);
      if served then
        forall s :: s in m.validationSteps <==>
          exists i: nat, j: nat, name :: Earns(f, xs, criterion, name, i, j) && xs[i].validations[j] == s
      else m.validationSteps == ["Validate: " + criterion] && m.sourceExperts == []
  {
    var found := Matching(f, xs, criterion);
    forall i: nat, j: nat, name | Earns(f, xs, criterion, name, i, j)
      ensures Entry(xs[i].validations[j], name) in found && xs[i].validations[j] in Texts(found)
    {
      EarnedIsCredited(f, xs, criterion, name, i, j);
      TextListed(found, Entry(xs[i].validations[j], name));
    }
    forall s | s in Texts(found)
      ensures exists i: nat, j: nat, name :: Earns(f, xs, criterion, name, i, j) && xs[i].validations[j] == s
    {
      var k :| 0 <= k < |found| && Texts(found)[k] == s;
      var i, j := CreditIsEarned(f, xs, criterion, found[k]);
    }
    if found == [] {
      NoExperts(m.sourceExperts);
    } else {
      assert Texts(found)[0] in Texts(found);
    }
  }

  lemma NoExperts(names: seq<string>)
    ensures ExpertsOf([], names) ==> names == []
  {
    assert names != [] ==> names[0] in names;
  }

  lemma TextListed(es: seq<Entry>, e: Entry)
    requires e in es
    ensures e.text in Texts(es)
  {
    var k :| 0 <= k < |es| && es[k] == e;
    assert Texts(es)[k] == e.text;
  }

  // ----- The plan ----------------------------------------------------------------------

  ghost predicate RisksFor(given: seq<Entry>, risks: seq<RiskItem>) {
    && |risks| == |given|
    && forall k :: 0 <= k < |given| ==> risks[k] == RiskOf(given[k])
  }

  function RiskOf(e: Entry): RiskItem {
    RiskItem(e.text, e.expert, "See expert recommendations", "medium")
  }

  method CollectRisks(xs: seq<ExpertOutput>) returns (risks: seq<RiskItem>)
    ensures RisksFor(Contributed(xs, Risks), risks)
  {
    risks := [];
    for i := 0 to |xs|
      invariant RisksFor(Contributed(xs[..i], Risks), risks)
    {
      ContributedSnoc(xs, Risks, i);
      ghost var earlier := Contributed(xs[..i], Risks);
      ghost var own := Signed(xs[i].expertName, xs[i].risks);
      assert earlier + own[..0] == earlier;
      for j := 0 to |xs[i].risks|
        invariant RisksFor(earlier + own[..j], risks)
      {
        Sorting.AppendTake(earlier, own, j);
        RisksSnoc(earlier + own[..j], own[j], risks);
        risks := risks + [RiskOf(Entry(xs[i].risks[j], xs[i].expertName))];
      }
      assert own[..|own|] == own;
    }
    assert xs[..|xs|] == xs;
  }

  lemma RisksSnoc(given: seq<Entry>, e: Entry, risks: seq<RiskItem>)
    requires RisksFor(given, risks)
    ensures RisksFor(given + [e], risks + [RiskOf(e)])
  {}

  /** Provenance lists every expert and, in order, every step that is not a checkpoint. */
  ghost predicate ProvenanceFor(xs: seq<ExpertOutput>, steps: seq<PlanStep>, p: Provenance) {
    && |p.expertsConsulted| == |xs|
    && (forall i :: 0 <= i < |xs| ==>
          p.expertsConsulted[i] == Consulted(xs[i].expertId, xs[i].expertVersion, xs[i].expertName))
    && |p.decisions| == |Contributed(xs, Recommendations)| <= |steps|
    && (forall k :: 0 <= k < |p.decisions| ==>
          !steps[k].isCheckpoint && p.decisions[k] == Decision(steps[k].description, steps[k].sourceExpert))
    && (forall k :: |p.decisions| <= k < |steps| ==> steps[k].isCheckpoint)
  }

  method BuildProvenance(xs: seq<ExpertOutput>, steps: seq<PlanStep>) returns (p: Provenance)
    requires StepsFor(Contributed(xs, Recommendations), Contributed(xs, Validations), steps)
    ensures ProvenanceFor(xs, steps, p)
  {
    DecisionSteps(Contributed(xs, Recommendations), Contributed(xs, Validations), steps);
    var kept := Sorting.Filter(IsDecision, steps);
    var consulted := seq(|xs|, i requires 0 <= i < |xs| =>
                                 Consulted(xs[i].expertId, xs[i].expertVersion, xs[i].expertName));
    p := Provenance(consulted, seq(|kept|, k requires 0 <= k < |kept| =>
                                          Decision(kept[k].description, kept[k].sourceExpert)));
  }

  method Assemble(f: Format, xs: seq<ExpertOutput>, constraints: seq<string>, criteria: seq<string>)
    returns (plan: Plan)
    ensures StepsFor(Contributed(xs, Recommendations), Contributed(xs, Validations), plan.steps)
    ensures plan.conflicts == Conflicts(f, xs, constraints)
    ensures EscalationsFor(f, UnresolvedOf(plan.conflicts), plan.escalations)
    ensures RefinementFor(plan.conflicts, plan.refinement)
    ensures RisksFor(Contributed(xs, Risks), plan.risks)
    ensures HandoffFor(f, xs, criteria, plan.qaHandoff)
    ensures ProvenanceFor(xs, plan.steps, plan.provenance)
  {
    var given, counter := AddRecommendations(xs);
    var steps := AddCheckpoints(xs, Contributed(xs, Recommendations), given, counter);
    var conflicts := DetectConflicts(f, xs, constraints);
    var escalations := Escalate(f, UnresolvedOf(conflicts));
    var refinement := RequestRefinement(conflicts);
    var risks := CollectRisks(xs);
    var qaHandoff := BuildQaHandoff(f, criteria, xs);
    var provenance := BuildProvenance(xs, steps);
    plan := Plan(steps, conflicts, escalations, refinement, risks, qaHandoff, provenance);
  }

  /** Which step an expert's recommendation or validation has become. */
  function PlaceOf(xs: seq<ExpertOutput>, checkpoint: bool, i: nat, j: nat): nat
    requires i < |xs|
  {
    if checkpoint then Offset(xs, Recommendations, |xs|) + Offset(xs, Validations, i) + j
    else Offset(xs, Recommendations, i) + j
  }

  function LinesOf(o: ExpertOutput, checkpoint: bool): seq<string> {
    if checkpoint then o.validations else o.recommendations
  }

  /** Line `j` of expert `i` has become step `k`. */
  predicate Becomes(xs: seq<ExpertOutput>, checkpoint: bool, i: nat, j: nat, k: nat) {
    i < |xs| && j < |LinesOf(xs[i], checkpoint)| && k == PlaceOf(xs, checkpoint, i, j)
  }

  /** Nothing is lost: recommendation (or validation) `j` of expert `i` has its own step. */
  lemma EveryLineHasItsStep(xs: seq<ExpertOutput>, steps: seq<PlanStep>, checkpoint: bool, i: nat, j: nat)
    requires StepsFor(Contributed(xs, Recommendations), Contributed(xs, Validations), steps)
    requires i < |xs| && j < |LinesOf(xs[i], checkpoint)|
    ensures var k := PlaceOf(xs, checkpoint, i, j);
      var line := LinesOf(xs[i], checkpoint)[j];
      && k < |steps|
      && steps[k] == PlanStep(k + 1, if checkpoint then "Checkpoint: " + line else line, xs[i].expertName, checkpoint)
  {
    ContributedLength(xs, Recommendations, |xs|);
    assert xs[..|xs|] == xs;
    var k := PlaceOf(xs, checkpoint, i, j);
    if checkpoint {
      ContributedAt(xs, Validations, i, j);
    } else {
      ContributedAt(xs, Recommendations, i, j);
    }
    assert steps[k] == StepAt(Contributed(xs, Recommendations), Contributed(xs, Validations), k);
  }

  /** Nothing is added or repeated: each step stems from exactly one line of one expert. */
  lemma EveryStepHasItsLine(xs: seq<ExpertOutput>, steps: seq<PlanStep>, k: nat)
    returns (checkpoint: bool, i: nat, j: nat)
    requires StepsFor(Contributed(xs, Recommendations), Contributed(xs, Validations), steps)
    requires k < |steps|
    ensures steps[k].stepId == k + 1 && steps[k].isCheckpoint == checkpoint
    ensures Becomes(xs, checkpoint, i, j, k)
    ensures forall i': nat, j': nat :: Becomes(xs, checkpoint, i', j', k) ==> i' == i && j' == j
  {
    ContributedLength(xs, Recommendations, |xs|);
    ContributedLength(xs, Validations, |xs|);
    assert xs[..|xs|] == xs;
    assert steps[k] == StepAt(Contributed(xs, Recommendations), Contributed(xs, Validations), k);
    var recs := Offset(xs, Recommendations, |xs|);
    checkpoint := k >= recs;
    var pick: Pick := if checkpoint then Validations else Recommendations;
    var place := if checkpoint then k - recs else k;
    i, j := Locate(xs, pick, |xs|, place);
    forall i': nat, j': nat | Becomes(xs, checkpoint, i', j', k)
      ensures i' == i && j' == j
    {
      assert Sits(xs, pick, i', j', place);
    }
  }

  /** Risk `j` of expert `i` is listed behind those of the earlier experts, with the fixed mitigation
      and severity, and no other risk is listed. */
  lemma EveryRiskIsListed(xs: seq<ExpertOutput>, risks: seq<RiskItem>, i: nat, j: nat)
    requires RisksFor(Contributed(xs, Risks), risks)
    requires i < |xs| && j < |xs[i].risks|
    ensures |risks| == Offset(xs, Risks, |xs|)
    ensures var k := Offset(xs, Risks, i) + j;
      && k < |risks|
      && risks[k] == RiskItem(xs[i].risks[j], xs[i].expertName, "See expert recommendations", "medium")
  {
    ContributedLength(xs, Risks, |xs|);
    assert xs[..|xs|] == xs;
    ContributedAt(xs, Risks, i, j);
  }
}
