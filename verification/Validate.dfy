/** Flow-load validation: the structural rules, each as the loop that reports violations,
    proved against what the rule demands of the flow. */
module Validate {
  import opened Wrappers
  import opened FlowTypes
  import opened Template
  import opened Closure
  import opened Dag

  datatype Violation = Violation(rule: string, step: Option<StepId>)

  // ----- guaranteed predecessors --------------------------------------------------------

  /** The steps directly guaranteed before a step: its only routing source, or else its
      declared (and defined) needs. */
  function Direct(flow: Flow, id: StepId): set<StepId> {
    var sources := Sources(flow, id);
    if |sources| == 1 then {sources[0]}
    else match flow.StepOf(id)
      case None => {}
      case Some(step) => set n | n in step.needs && flow.Defined(n)
  }

  function DirectGraph(flow: Flow): Graph {
    map id | id in StepIds(flow) :: Direct(flow, id)
  }

  /** Routing sources are defined steps. */
  lemma DirectDefined(flow: Flow, id: StepId)
    ensures Direct(flow, id) <= StepIds(flow)
  {
    var sources := Sources(flow, id);
    if |sources| == 1 {
      SourcesAreEdges(flow, id);
      assert Edge(flow, sources[0], id);
    }
  }

  /** The direct predecessors, as a worklist push: the sole source or the defined needs. */
  method PushDirect(flow: Flow, incoming: map<StepId, seq<StepId>>, id: StepId) returns (found: seq<StepId>)
    requires IsIncoming(flow, incoming)
    ensures forall x :: x in found <==> x in Direct(flow, id)
  {
    hide IsIncoming, Sources;
    var sources := Incoming(incoming, id);
    IncomingSources(flow, incoming, id);
    if |sources| == 1 { return [sources[0]]; }
    found := [];
    var step := flow.StepOf(id);
    if step.None? { return; }
    var needs := step.value.needs;
    for i := 0 to |needs|
      invariant forall x :: x in found <==> x in needs[..i] && flow.Defined(x)
    {
      assert needs[..i + 1] == needs[..i] + [needs[i]];
      if flow.Defined(needs[i]) { found := found + [needs[i]]; }
    }
    assert needs[..|needs|] == needs;
  }

  lemma IncomingSources(flow: Flow, incoming: map<StepId, seq<StepId>>, id: StepId)
    requires IsIncoming(flow, incoming)
    ensures Incoming(incoming, id) == Sources(flow, id)
  {
  }

  lemma NextDirect(flow: Flow, id: StepId)
    requires id in StepIds(flow)
    ensures Next(DirectGraph(flow), id) == Direct(flow, id)
  {
  }

  /** `guaranteed_predecessors`: everything that `Direct` leads to, by a worklist that may hold
      duplicates. */
  method GuaranteedPredecessors(flow: Flow, id: StepId) returns (result: set<StepId>)
    ensures LeastClosed(DirectGraph(flow), Direct(flow, id), result)
    ensures result <= StepIds(flow)
  {
    hide Pending, LeastClosed, Elems, Direct, DirectGraph, IsIncoming, StepIds;
    ghost var g, seed, space := DirectGraph(flow), Direct(flow, id), StepIds(flow);
    var incoming := StepsWithIncomingEdges(flow);
    result := {};
    var stack := PushDirect(flow, incoming, id);
    DirectDefined(flow, id);
    SeedPending(g, seed, stack);
    while stack != []
      invariant result + Elems(stack) <= space
      invariant Pending(g, seed, result, Elems(stack))
      decreases |space - result|, |stack|
    {
      var n := |stack| - 1;
      var node := stack[n];
      ElemsPop(stack);
      ghost var todo := Elems(stack);
      stack := stack[..n];
      if node !in result {
        var more := PushDirect(flow, incoming, node);
        NextDirect(flow, node);
        DirectDefined(flow, node);
        ElemsAppend(stack, more, Direct(flow, node));
        SubsetSize(space - (result + {node}), space - result);
        PendingStep(g, seed, result, todo, node, Elems(stack + more));
        result, stack := result + {node}, stack + more;
      } else {
        PendingStep(g, seed, result, todo, node, Elems(stack));
      }
    }
    PendingDone(g, seed, result);
  }

  lemma SeedPending(g: Graph, seed: set<StepId>, stack: seq<StepId>)
    requires forall x :: x in stack <==> x in seed
    ensures Elems(stack) == seed && Pending(g, seed, {}, Elems(stack))
  {
  }

  // ----- per-step rules -----------------------------------------------------------------

  predicate ValidId(id: StepId) {
    id != "" && forall c | c in id :: 'a' <= c <= 'z' || '0' <= c <= '9' || c == '-' || c == '_'
  }

  predicate TargetIsValid(flow: Flow, target: StepId) {
    target == DONE || flow.Defined(target)
  }

  predicate TargetsExist(flow: Flow, step: Step) {
    (forall t | t in AllRoutes(step) :: TargetIsValid(flow, t)) && (forall n | n in step.needs :: flow.Defined(n))
  }

  /** A step with several routing sources declares needs. */
  predicate JoinDeclared(flow: Flow, step: Step) {
    |Sources(flow, step.id)| > 1 ==> flow.Defined(step.id) && flow.StepOf(step.id).value.needs != []
  }

  predicate NeedsAreSources(flow: Flow, step: Step) {
    forall n | n in step.needs :: n in Sources(flow, step.id)
  }

  predicate HumanLoopPaired(flow: Flow, step: Step) {
    if step.humanLoop then step.onApprove.Some? && step.onReject.Some?
    else step.onApprove.None? && step.onReject.None?
  }

  predicate RejectInputLoops(flow: Flow, step: Step) {
    step.rejectInput.Some? ==> IsSelfRejectLoop(step)
  }

  /** The steps a step's templates mention. */
  function TemplateRefs(step: Step): seq<StepId> {
    StepRefs(step.with.input) + (match step.rejectInput case None => [] case Some(t) => StepRefs(t))
  }

  /** References stay within the guaranteed predecessors, or the step itself. */
  ghost predicate RefsGuaranteed(flow: Flow, step: Step) {
    forall before: set<StepId> :: LeastClosed(DirectGraph(flow), Direct(flow, step.id), before) ==>
      forall ref :: ref in TemplateRefs(step) ==> ref == step.id || ref in before
  }

  /** A report about one step that breaks a rule. */
  predicate About(steps: seq<Step>, v: Violation, rule: string, s: Step) {
    s in steps && v == Violation(rule, Some(s.id))
  }

  /** The loop every per-step rule is: one report for each step that breaks the rule. */
  method ReportSteps(flow: Flow, rule: string, ok: (Flow, Step) -> bool) returns (out: seq<Violation>)
    ensures forall v :: v in out <==> exists s :: About(flow.steps, v, rule, s) && !ok(flow, s)
  {
    out := [];
    for i := 0 to |flow.steps|
      invariant forall v :: v in out <==>
                  exists k :: 0 <= k < i && !ok(flow, flow.steps[k]) && v == Violation(rule, Some(flow.steps[k].id))
    {
      if !ok(flow, flow.steps[i]) { out := out + [Violation(rule, Some(flow.steps[i].id))]; }
    }
    forall v, s | About(flow.steps, v, rule, s) && !ok(flow, s) ensures v in out {
      var k :| 0 <= k < |flow.steps| && flow.steps[k] == s;
    }
    assert forall k :: 0 <= k < |flow.steps| ==> flow.steps[k] in flow.steps;
  }

  /** `unique_step_ids`: a step is reported when an earlier step has its id. */
  method ReportDuplicates(flow: Flow) returns (out: seq<Violation>)
    ensures forall v :: v in out <==>
              exists i, j :: 0 <= i < j < |flow.steps| && flow.steps[i].id == flow.steps[j].id
                             && v == Violation("unique_step_ids", Some(flow.steps[j].id))
    ensures out == [] <==> UniqueIds(flow)
  {
    out := [];
    var seen: set<StepId> := {};
    for n := 0 to |flow.steps|
      invariant forall x :: x in seen <==> exists i :: 0 <= i < n && flow.steps[i].id == x
      invariant forall v :: v in out <==>
        exists i, j :: 0 <= i < j < n && flow.steps[i].id == flow.steps[j].id
                       && v == Violation("unique_step_ids", Some(flow.steps[j].id))
    {
      var id := flow.steps[n].id;
      if id in seen { out := out + [Violation("unique_step_ids", Some(id))]; }
      seen := seen + {id};
    }
    if out != [] { assert out[0] in out; }
    forall i, j | 0 <= i < j < |flow.steps| && flow.steps[i].id == flow.steps[j].id
      ensures Violation("unique_step_ids", Some(flow.steps[j].id)) in out {}
  }

  /** A report of a step whose references are not all guaranteed, among the first `n`. */
  ghost predicate CrossUpTo(flow: Flow, n: nat, v: Violation)
    requires n <= |flow.steps|
  {
    exists k :: 0 <= k < n && !RefsGuaranteed(flow, flow.steps[k])
                && v == Violation("no_cross_sibling_references", Some(flow.steps[k].id))
  }

  ghost predicate CrossReported(flow: Flow, v: Violation) {
    exists s :: s in flow.steps && !RefsGuaranteed(flow, s)
                && v == Violation("no_cross_sibling_references", Some(s.id))
  }

  lemma NoCross(flow: Flow)
    ensures forall v :: !CrossUpTo(flow, 0, v)
  {
  }

  lemma OneMoreCross(flow: Flow, n: nat, next: nat)
    requires n < |flow.steps| && next == n + 1
    ensures forall v :: CrossUpTo(flow, next, v) <==>
              || CrossUpTo(flow, n, v)
              || (!RefsGuaranteed(flow, flow.steps[n])
                  && v == Violation("no_cross_sibling_references", Some(flow.steps[n].id)))
  {
    hide RefsGuaranteed;
  }

  lemma AllCross(flow: Flow)
    ensures forall v :: CrossUpTo(flow, |flow.steps|, v) <==> CrossReported(flow, v)
  {
    hide RefsGuaranteed;
    forall v | CrossReported(flow, v) ensures CrossUpTo(flow, |flow.steps|, v) {
      var s :| s in flow.steps && !RefsGuaranteed(flow, s)
               && v == Violation("no_cross_sibling_references", Some(s.id));
      var k :| 0 <= k < |flow.steps| && flow.steps[k] == s;
    }
  }

  lemma NoneCross(flow: Flow)
    ensures (forall v :: !CrossReported(flow, v)) <==> forall s :: s in flow.steps ==> RefsGuaranteed(flow, s)
  {
    hide RefsGuaranteed;
    forall s | s in flow.steps && !RefsGuaranteed(flow, s)
      ensures CrossReported(flow, Violation("no_cross_sibling_references", Some(s.id))) {}
  }

  /** `no_cross_sibling_references`: the guaranteed predecessors of every step, then a report
      for each reference outside them. */
  method ReportCrossReferences(flow: Flow) returns (out: seq<Violation>)
    ensures forall v :: v in out <==> CrossReported(flow, v)
  {
    hide *;
    out := [];
    NoCross(flow);
    for i := 0 to |flow.steps|
      invariant forall v :: v in out <==> CrossUpTo(flow, i, v)
    {
      var step := flow.steps[i];
      var allowed := GuaranteedPredecessors(flow, step.id);
      var bad := CrossReferences(step, allowed);
      CrossReferencesMean(flow, step, allowed, bad);
      OneMoreCross(flow, i, i + 1);
      out := ReportEach(out, step.id, |bad|);
    }
    AllCross(flow);
  }

  /** One report of the step for each of its `n` references outside the set. */
  method ReportEach(before: seq<Violation>, id: StepId, n: nat) returns (out: seq<Violation>)
    ensures forall v :: v in out <==>
              v in before || (n > 0 && v == Violation("no_cross_sibling_references", Some(id)))
  {
    out := before;
    for k := 0 to n
      invariant forall v :: v in out <==>
                  v in before || (k > 0 && v == Violation("no_cross_sibling_references", Some(id)))
    {
      out := out + [Violation("no_cross_sibling_references", Some(id))];
    }
  }

  /** The references of a step, other than to itself, outside the allowed set. */
  method CrossReferences(step: Step, allowed: set<StepId>) returns (bad: seq<StepId>)
    ensures bad == [] <==> forall ref :: ref in TemplateRefs(step) ==> ref == step.id || ref in allowed
  {
    hide StepRefs;
    var refs := ExtractStepRefs(step.with.input);
    if step.rejectInput.Some? {
      var more := ExtractStepRefs(step.rejectInput.value);
      refs := refs + more;
    }
    assert refs == TemplateRefs(step);
    hide TemplateRefs;
    bad := [];
    for i := 0 to |refs|
      invariant bad == [] <==> forall k :: 0 <= k < i ==> refs[k] == step.id || refs[k] in allowed
    {
      if refs[i] != step.id && refs[i] !in allowed { bad := bad + [refs[i]]; }
    }
    assert forall ref :: ref in refs <==> exists k :: 0 <= k < |refs| && refs[k] == ref;
  }

  lemma CrossReferencesMean(flow: Flow, step: Step, allowed: set<StepId>, bad: seq<StepId>)
    requires LeastClosed(DirectGraph(flow), Direct(flow, step.id), allowed)
    requires bad == [] <==> forall ref :: ref in TemplateRefs(step) ==> ref == step.id || ref in allowed
    ensures bad == [] <==> RefsGuaranteed(flow, step)
  {
    forall other | LeastClosed(DirectGraph(flow), Direct(flow, step.id), other) ensures other == allowed {
      LeastClosedUnique(DirectGraph(flow), Direct(flow, step.id), other, allowed);
    }
  }

  // ----- the checklist ------------------------------------------------------------------

  /** The rules that read one step at a time. */
  predicate StepRules(flow: Flow, step: Step) {
    && ValidId(step.id) && TargetsExist(flow, step) && JoinDeclared(flow, step) && NeedsAreSources(flow, step)
    && HumanLoopPaired(flow, step) && RejectInputLoops(flow, step)
  }

  /** What an accepted flow satisfies. */
  ghost predicate Accepted(flow: Flow) {
    && flow.steps != []
    && UniqueIds(flow)
    && |EntrySteps(flow)| == 1
    && ForwardAcyclic(flow)
    && (forall s :: s in flow.steps ==> StepRules(flow, s))
    && (forall s :: s in flow.steps ==> RefsGuaranteed(flow, s))
  }

  /** What is reported: each rule names itself and the step that breaks it, or no step where the
      rule is about the flow as a whole. */
  ghost predicate Due(flow: Flow, v: Violation) {
    || (v == Violation("non_empty_steps", None) && flow.steps == [])
    || (exists i, j :: 0 <= i < j < |flow.steps| && flow.steps[i].id == flow.steps[j].id
                       && v == Violation("unique_step_ids", Some(flow.steps[j].id)))
    || (exists s :: About(flow.steps, v, "valid_step_id", s) && !ValidId(s.id))
    || (exists s :: About(flow.steps, v, "routing_target_exists", s) && !TargetsExist(flow, s))
    || (v == Violation("exactly_one_entry_step", None) && flow.steps != [] && |EntrySteps(flow)| != 1)
    || (v == Violation("acyclic", None) && !ForwardAcyclic(flow))
    || (exists s :: About(flow.steps, v, "multi_target_needs_join", s) && !JoinDeclared(flow, s))
    || (exists s :: About(flow.steps, v, "needs_matches_sources", s) && !NeedsAreSources(flow, s))
    || (exists s :: About(flow.steps, v, "human_loop_routing_pairs", s) && !HumanLoopPaired(flow, s))
    || (exists s :: About(flow.steps, v, "reject_input_self_loop_only", s) && !RejectInputLoops(flow, s))
    || (exists s :: About(flow.steps, v, "no_cross_sibling_references", s) && !RefsGuaranteed(flow, s))
  }

  /** Nothing is due exactly when every rule holds. */
  lemma NothingDue(flow: Flow)
    ensures (forall v :: !Due(flow, v)) <==> Accepted(flow)
  {
    hide *;
    if Accepted(flow) {
      forall v ensures !Due(flow, v) { NeverDue(flow, v); }
    }
    if forall v :: !Due(flow, v) {
      forall s | s in flow.steps ensures StepRules(flow, s) && RefsGuaranteed(flow, s) { RulesKept(flow, s); }
      WholeDue(flow);
      AcceptedBy(flow);
    }
  }

  lemma RulesKept(flow: Flow, s: Step)
    requires s in flow.steps && forall v :: !Due(flow, v)
    ensures StepRules(flow, s) && RefsGuaranteed(flow, s)
  {
    hide *;
    DueAbout(flow, s);
    RulesAre(flow, s);
  }

  lemma WholeDue(flow: Flow)
    ensures flow.steps == [] ==> Due(flow, Violation("non_empty_steps", None))
    ensures !UniqueIds(flow) ==> exists id :: Due(flow, Violation("unique_step_ids", Some(id)))
    ensures flow.steps != [] && |EntrySteps(flow)| != 1 ==> Due(flow, Violation("exactly_one_entry_step", None))
    ensures !ForwardAcyclic(flow) ==> Due(flow, Violation("acyclic", None))
  {
    hide ValidId, TargetsExist, JoinDeclared, NeedsAreSources, HumanLoopPaired, RejectInputLoops, RefsGuaranteed,
         EntrySteps, ForwardAcyclic, About;
    if !UniqueIds(flow) {
      var i, j :| 0 <= i < j < |flow.steps| && flow.steps[i].id == flow.steps[j].id;
      assert Due(flow, Violation("unique_step_ids", Some(flow.steps[j].id)));
    }
  }

  lemma RulesAre(flow: Flow, s: Step)
    ensures StepRules(flow, s) <==>
              && ValidId(s.id) && TargetsExist(flow, s) && JoinDeclared(flow, s) && NeedsAreSources(flow, s)
              && HumanLoopPaired(flow, s) && RejectInputLoops(flow, s)
  {
    hide ValidId, TargetsExist, JoinDeclared, NeedsAreSources, HumanLoopPaired, RejectInputLoops;
  }

  lemma AcceptedBy(flow: Flow)
    requires flow.steps != [] && UniqueIds(flow) && |EntrySteps(flow)| == 1 && ForwardAcyclic(flow)
    requires forall s :: s in flow.steps ==> StepRules(flow, s) && RefsGuaranteed(flow, s)
    ensures Accepted(flow)
  {
    hide StepRules, RefsGuaranteed, EntrySteps, ForwardAcyclic, UniqueIds;
  }

  lemma DueAbout(flow: Flow, s: Step)
    requires s in flow.steps
    ensures !ValidId(s.id) ==> Due(flow, Violation("valid_step_id", Some(s.id)))
    ensures !TargetsExist(flow, s) ==> Due(flow, Violation("routing_target_exists", Some(s.id)))
    ensures !JoinDeclared(flow, s) ==> Due(flow, Violation("multi_target_needs_join", Some(s.id)))
    ensures !NeedsAreSources(flow, s) ==> Due(flow, Violation("needs_matches_sources", Some(s.id)))
    ensures !HumanLoopPaired(flow, s) ==> Due(flow, Violation("human_loop_routing_pairs", Some(s.id)))
    ensures !RejectInputLoops(flow, s) ==> Due(flow, Violation("reject_input_self_loop_only", Some(s.id)))
    ensures !RefsGuaranteed(flow, s) ==> Due(flow, Violation("no_cross_sibling_references", Some(s.id)))
  {
    hide ValidId, TargetsExist, JoinDeclared, NeedsAreSources, HumanLoopPaired, RejectInputLoops, RefsGuaranteed,
         EntrySteps, ForwardAcyclic;
    assert About(flow.steps, Violation("valid_step_id", Some(s.id)), "valid_step_id", s);
    assert About(flow.steps, Violation("routing_target_exists", Some(s.id)), "routing_target_exists", s);
    assert About(flow.steps, Violation("multi_target_needs_join", Some(s.id)), "multi_target_needs_join", s);
    assert About(flow.steps, Violation("needs_matches_sources", Some(s.id)), "needs_matches_sources", s);
    assert About(flow.steps, Violation("human_loop_routing_pairs", Some(s.id)), "human_loop_routing_pairs", s);
    assert About(flow.steps, Violation("reject_input_self_loop_only", Some(s.id)), "reject_input_self_loop_only", s);
    assert About(flow.steps, Violation("no_cross_sibling_references", Some(s.id)), "no_cross_sibling_references", s);
  }

  lemma NeverDue(flow: Flow, v: Violation)
    requires Accepted(flow)
    ensures !Due(flow, v)
  {
    hide ValidId, TargetsExist, JoinDeclared, NeedsAreSources, HumanLoopPaired, RejectInputLoops, RefsGuaranteed,
         EntrySteps, ForwardAcyclic;
    assert forall s :: s in flow.steps ==> StepRules(flow, s);
  }

  lemma CrossAre(flow: Flow, v: Violation)
    ensures CrossReported(flow, v) <==>
              exists s :: About(flow.steps, v, "no_cross_sibling_references", s) && !RefsGuaranteed(flow, s)
  {
    hide RefsGuaranteed;
  }

  /** `validate`: what is reported is what is due, which is nothing exactly when the flow satisfies
      every rule. */
  method Validate(flow: Flow) returns (out: seq<Violation>)
    ensures forall v :: v in out <==> Due(flow, v)
    ensures out == [] <==> Accepted(flow)
  {
    hide UniqueIds, ForwardAcyclic, RefsGuaranteed, ForwardRanked, EntrySteps, ValidId, TargetsExist, JoinDeclared,
         NeedsAreSources, HumanLoopPaired, RejectInputLoops, About, CrossReported, Accepted;
    var fields := if flow.steps == [] then [Violation("non_empty_steps", None)] else [];
    var ids := ReportSteps(flow, "valid_step_id", (f: Flow, s: Step) => ValidId(s.id));
    var duplicates := ReportDuplicates(flow);
    var targets := ReportSteps(flow, "routing_target_exists", (f, s) => TargetsExist(f, s));
    var entry: seq<Violation> := [];
    if flow.steps != [] {
      var entries := FindEntrySteps(flow);
      if |entries| != 1 { entry := [Violation("exactly_one_entry_step", None)]; }
    }
    var cycle, rank := FindCycle(flow);
    var cyclic := if cycle.Some? then [Violation("acyclic", None)] else [];
    var joins := ReportSteps(flow, "multi_target_needs_join", (f, s) => JoinDeclared(f, s));
    var needs := ReportSteps(flow, "needs_matches_sources", (f, s) => NeedsAreSources(f, s));
    var human := ReportSteps(flow, "human_loop_routing_pairs", (f, s) => HumanLoopPaired(f, s));
    var reject := ReportSteps(flow, "reject_input_self_loop_only", (f, s) => RejectInputLoops(f, s));
    var cross := ReportCrossReferences(flow);
    out := fields + ids + duplicates + targets + entry + cyclic + joins + needs + human + reject + cross;
    forall v ensures v in out <==> Due(flow, v) {
      CrossAre(flow, v);
    }
    SomeMember(out);
    NothingDue(flow);
  }
}
