/** Concrete flows, and what it takes to see that the validator accepts them. */
module Samples {
  import opened Wrappers
  import opened FlowTypes
  import opened Closure
  import opened Template
  import opened Dag
  import opened Validate

  const PLAIN: CliWith := CliWith("tool", None, "", None, map[])

  function FlowOf(name: string, steps: seq<Step>): Flow {
    Flow(name, [], FlowDefaults(None, None), steps)
  }

  // ----- one entry ----------------------------------------------------------------------

  predicate OneOf(list: seq<Step>, id: StepId) {
    exists i :: 0 <= i < |list| && list[i].id == id
  }

  /** Filtering steps with distinct ids leaves one id when all others are dropped. */
  lemma {:induction false} FilterOnly(list: seq<Step>, drop: set<StepId>, id: StepId)
    requires DistinctIds(list)
    requires forall s :: s in list ==> (s.id in drop <==> s.id != id)
    ensures FilterIds(list, drop) == if OneOf(list, id) then [id] else []
  {
    if list != [] {
      var n := |list| - 1;
      Fewer(list, drop, id);
      FilterOnly(list[..n], drop, id);
      OneOfLast(list, id);
      hide OneOf;
    }
  }

  lemma Fewer(list: seq<Step>, drop: set<StepId>, id: StepId)
    requires list != [] && DistinctIds(list) && forall s :: s in list ==> (s.id in drop <==> s.id != id)
    ensures var n := |list| - 1;
            && DistinctIds(list[..n]) && (forall s :: s in list[..n] ==> (s.id in drop <==> s.id != id))
            && (list[n].id in drop <==> list[n].id != id)
  {
    assert list[|list| - 1] in list;
  }

  lemma OneOfLast(list: seq<Step>, id: StepId)
    requires list != [] && DistinctIds(list)
    ensures var n := |list| - 1;
            && (OneOf(list, id) <==> OneOf(list[..n], id) || list[n].id == id)
            && !(OneOf(list[..n], id) && list[n].id == id)
  {
    var n := |list| - 1;
    if OneOf(list, id) && list[n].id != id {
      var i :| 0 <= i < |list| && list[i].id == id;
      assert list[..n][i].id == id;
    }
    if OneOf(list[..n], id) {
      var i :| 0 <= i < n && list[..n][i].id == id;
      assert list[i].id == id;
    }
  }

  lemma {:induction false} FilterNone(list: seq<Step>, drop: set<StepId>)
    requires forall s :: s in list ==> s.id in drop
    ensures FilterIds(list, drop) == []
  {
    if list != [] {
      var n := |list| - 1;
      assert list[n] in list && forall s :: s in list[..n] ==> s in list;
      FilterNone(list[..n], drop);
    }
  }

  ghost predicate RoutedFrom(flow: Flow, id: StepId) {
    exists s :: s in flow.steps && id in AllRoutes(s) && Counts(s, id)
  }

  ghost predicate ForwardRoutedFrom(flow: Flow, id: StepId) {
    exists s :: s in flow.steps && id in ForwardRoutes(s) && Counts(s, id)
  }

  /** The entry is the only step nothing routes to. */
  ghost predicate StrictEntry(flow: Flow, entry: StepId) {
    forall s :: s in flow.steps ==> (RoutedFrom(flow, s.id) <==> s.id != entry)
  }

  /** Everything is routed to, and the entry is the only step no forward route leads to. */
  ghost predicate FallbackEntry(flow: Flow, entry: StepId) {
    && (forall s :: s in flow.steps ==> RoutedFrom(flow, s.id))
    && (forall s :: s in flow.steps ==> (ForwardRoutedFrom(flow, s.id) <==> s.id != entry))
  }

  lemma TargetedAreRouted(flow: Flow, id: StepId)
    ensures id in Targeted(flow) <==> RoutedFrom(flow, id)
    ensures id in ForwardTargeted(flow) <==> ForwardRoutedFrom(flow, id)
  {
  }

  lemma DefinedIsOne(flow: Flow, id: StepId)
    ensures flow.Defined(id) <==> OneOf(flow.steps, id)
  {
  }

  lemma StrictIs(flow: Flow, entry: StepId)
    requires UniqueIds(flow) && flow.Defined(entry) && StrictEntry(flow, entry)
    ensures EntrySteps(flow) == [entry]
  {
    DefinedIsOne(flow, entry);
    hide Targeted, RoutedFrom, FilterIds, OneOf, FirstStep;
    forall s | s in flow.steps ensures s.id in Targeted(flow) <==> s.id != entry {
      TargetedAreRouted(flow, s.id);
    }
    FilterOnly(flow.steps, Targeted(flow), entry);
  }

  lemma FallbackIs(flow: Flow, entry: StepId)
    requires UniqueIds(flow) && flow.Defined(entry) && FallbackEntry(flow, entry)
    ensures EntrySteps(flow) == [entry]
  {
    DefinedIsOne(flow, entry);
    hide Targeted, ForwardTargeted, RoutedFrom, ForwardRoutedFrom, FilterIds, OneOf, FirstStep;
    forall s | s in flow.steps ensures s.id in Targeted(flow) && (s.id in ForwardTargeted(flow) <==> s.id != entry) {
      TargetedAreRouted(flow, s.id);
    }
    FilterNone(flow.steps, Targeted(flow));
    FilterOnly(flow.steps, ForwardTargeted(flow), entry);
  }

  // ----- acceptance ---------------------------------------------------------------------

  /** Forward routes fall in the given ranks. */
  predicate FallsIn(rank: map<StepId, nat>, s: Step) {
    forall t | t in ForwardRoutes(s) && Counts(s, t) :: s.id in rank && t in rank && rank[t] < rank[s.id]
  }

  ghost predicate RoutesTo(flow: Flow, source: StepId, target: StepId) {
    exists r :: r in flow.steps && r.id == source && target in AllRoutes(r) && Counts(r, target)
  }

  /** The rules that can be read off one step. */
  ghost predicate WellMade(flow: Flow, s: Step) {
    && ValidId(s.id) && TargetsExist(flow, s) && HumanLoopPaired(flow, s) && RejectInputLoops(flow, s)
    && (forall n :: n in s.needs ==> RoutesTo(flow, n, s.id))
    && (s.needs == [] ==> |Sources(flow, s.id)| <= 1)
    && (forall ref :: ref in TemplateRefs(s) ==> ref == s.id || ref in Direct(flow, s.id))
  }

  lemma RanksForward(flow: Flow, rank: map<StepId, nat>)
    requires forall s :: s in flow.steps ==> FallsIn(rank, s)
    ensures ForwardRanked(flow, rank) && ForwardAcyclic(flow)
  {
    forall a, b | ForwardEdge(flow, a, b) ensures a in rank && b in rank && rank[b] < rank[a] {}
    forall adj, path | IsForwardAdjacency(flow, adj) ensures !IsCycle(adj, path) {
      forall a, b {:trigger b in Next(adj, a)} | b in Next(adj, a) ensures a in rank && b in rank && rank[b] < rank[a] {
        assert ForwardEdge(flow, a, b);
      }
      RankedHasNoCycle(adj, rank);
    }
  }

  lemma MadeRules(flow: Flow, s: Step)
    requires UniqueIds(flow) && s in flow.steps && WellMade(flow, s)
    ensures StepRules(flow, s) && RefsGuaranteed(flow, s)
  {
    StepOfUnique(flow, s);
    SourcesAreEdges(flow, s.id);
    hide Sources, TemplateRefs, AllRoutes, Direct;
    forall n | n in s.needs ensures n in Sources(flow, s.id) {
      assert Edge(flow, n, s.id);
    }
  }

  lemma AcceptedBy(flow: Flow, entry: StepId, rank: map<StepId, nat>)
    requires UniqueIds(flow) && flow.Defined(entry) && EntrySteps(flow) == [entry]
    requires forall s :: s in flow.steps ==> WellMade(flow, s)
    requires forall s :: s in flow.steps ==> FallsIn(rank, s)
    ensures Accepted(flow) && ForwardRanked(flow, rank)
  {
    hide *;
    RanksForward(flow, rank);
    forall s | s in flow.steps ensures StepRules(flow, s) && RefsGuaranteed(flow, s) {
      MadeRules(flow, s);
    }
    AllRules(flow, entry);
  }

  lemma AllRules(flow: Flow, entry: StepId)
    requires UniqueIds(flow) && flow.Defined(entry) && EntrySteps(flow) == [entry] && ForwardAcyclic(flow)
    requires forall s :: s in flow.steps ==> StepRules(flow, s) && RefsGuaranteed(flow, s)
    ensures Accepted(flow)
  {
    hide UniqueIds, EntrySteps, ForwardAcyclic, StepRules, RefsGuaranteed;
  }

  lemma NoRefs(s: Step)
    requires s.with.input == "" && s.rejectInput.None?
    ensures TemplateRefs(s) == []
  {
  }

  /** A step nothing routes to has no sources. */
  lemma Unrouted(flow: Flow, id: StepId)
    requires !RoutedFrom(flow, id)
    ensures Sources(flow, id) == []
  {
    TargetedHasSources(flow, id);
  }

  // ----- two steps ----------------------------------------------------------------------

  /** Two steps, the first handing over to the second, which at most fails back. */
  ghost predicate PairShape(flow: Flow, first: Step, second: Step) {
    && flow.steps == [first, second] && first.id != second.id && first.id != DONE && second.id != DONE
    && ValidId(first.id) && ValidId(second.id)
    && HumanLoopPaired(flow, first) && HumanLoopPaired(flow, second)
    && first.rejectInput.None? && second.rejectInput.None? && StepRefs(first.with.input) == []
    && (forall ref :: ref in StepRefs(second.with.input) ==> ref == first.id)
    && second.id in AllRoutes(first) && (forall t :: t in AllRoutes(first) ==> t == second.id || t == DONE)
    && (forall t :: t in AllRoutes(second) ==> t == first.id || t == DONE)
    && first.id !in ForwardRoutes(second) && (first.id in AllRoutes(second) ==> second.id in ForwardRoutes(first))
    && (forall n :: n in second.needs ==> n == first.id)
    && (forall n :: n in first.needs ==> n == second.id && first.id in AllRoutes(second))
    && (second.needs == [] ==> Times(AllRoutes(first), second.id) == 1)
    && (first.needs == [] ==> Times(AllRoutes(second), first.id) <= 1)
  }

  /** The shape, from what each of its parts says. */
  lemma PairIs(flow: Flow, first: Step, second: Step)
    requires flow.steps == [first, second] && first.id != second.id && first.id != DONE && second.id != DONE
    requires ValidId(first.id) && ValidId(second.id) && first.rejectInput.None? && second.rejectInput.None?
    requires HumanLoopPaired(flow, first) && HumanLoopPaired(flow, second) && first.with.input == ""
    requires forall ref :: ref in StepRefs(second.with.input) ==> ref == first.id
    requires second.id in AllRoutes(first) && forall t :: t in AllRoutes(first) ==> t == second.id || t == DONE
    requires forall t :: t in AllRoutes(second) ==> t == first.id || t == DONE
    requires first.id !in ForwardRoutes(second)
    requires first.id in AllRoutes(second) ==> second.id in ForwardRoutes(first)
    requires forall n :: n in second.needs ==> n == first.id
    requires forall n :: n in first.needs ==> n == second.id && first.id in AllRoutes(second)
    requires second.needs == [] ==> Times(AllRoutes(first), second.id) == 1
    requires first.needs == [] ==> Times(AllRoutes(second), first.id) <= 1
    ensures PairShape(flow, first, second)
  {
    NoText();
    hide AllRoutes, ForwardRoutes, StepRefs, ValidId, HumanLoopPaired, Times;
  }

  lemma NoText()
    ensures StepRefs("") == []
  {
  }

  lemma UnattendedPaired(flow: Flow, s: Step)
    requires Unattended(s)
    ensures HumanLoopPaired(flow, s)
  {
  }

  lemma {:induction false} OccurrencesCount(step: Step, targets: seq<StepId>, t: StepId)
    ensures |Occurrences(step, targets, t)| == if Counts(step, t) then Times(targets, t) else 0
    ensures forall x :: x in Occurrences(step, targets, t) ==> x == step.id
  {
    hide Counts;
    if targets != [] { OccurrencesCount(step, targets[..|targets| - 1], t); }
  }

  lemma NotLooping(s: Step)
    ensures s.id !in AllRoutes(s) ==> !IsSelfRejectLoop(s)
  {
    assert IsSelfRejectLoop(s) ==> s.id in RouteTargets(s.onReject);
  }

  lemma PairSources(flow: Flow, first: Step, second: Step, t: StepId)
    requires PairShape(flow, first, second) && t != DONE
    ensures |Sources(flow, t)| == Times(AllRoutes(first), t) + Times(AllRoutes(second), t)
    ensures t == second.id ==> forall x :: x in Sources(flow, t) ==> x == first.id
  {
    NotLooping(first);
    NotLooping(second);
    hide AllRoutes, ForwardRoutes, Occurrences, StepRefs, IsSelfRejectLoop, ValidId, HumanLoopPaired;
    assert flow.steps[..1] == [first] && [first][..0] == [];
    assert SourcesIn([first], t) == SourcesIn([], t) + Occurrences(first, AllRoutes(first), t);
    OccurrencesCount(first, AllRoutes(first), t);
    OccurrencesCount(second, AllRoutes(second), t);
  }

  lemma PairBasics(flow: Flow, first: Step, second: Step)
    requires PairShape(flow, first, second)
    ensures UniqueIds(flow) && flow.Defined(first.id) && flow.Defined(second.id)
    ensures flow.StepOf(first.id) == Some(first) && flow.StepOf(second.id) == Some(second)
    ensures first in flow.steps && second in flow.steps && forall s :: s in flow.steps ==> s == first || s == second
    ensures forall t :: Counts(first, t) <==> t != DONE
    ensures forall t :: Counts(second, t) <==> t != DONE
  {
    NotLooping(first);
    NotLooping(second);
    assert flow.steps[0] == first && flow.steps[1] == second;
    hide AllRoutes, ForwardRoutes, StepRefs, IsSelfRejectLoop, ValidId, HumanLoopPaired;
  }

  lemma ForwardAreRoutes(s: Step)
    ensures forall t :: t in ForwardRoutes(s) ==> t in AllRoutes(s)
  {
  }

  lemma PairFacts(flow: Flow, first: Step, second: Step)
    requires PairShape(flow, first, second)
    ensures first.id != DONE && second.id != DONE && first.id != second.id
    ensures second.id in AllRoutes(first) && (forall t :: t in AllRoutes(first) ==> t == second.id || t == DONE)
    ensures forall t :: t in AllRoutes(second) ==> t == first.id || t == DONE
    ensures first.id !in ForwardRoutes(second) && (first.id in AllRoutes(second) ==> second.id in ForwardRoutes(first))
  {
    hide AllRoutes, ForwardRoutes, StepRefs, ValidId, HumanLoopPaired;
  }

  lemma PairEntry(flow: Flow, first: Step, second: Step)
    requires PairShape(flow, first, second)
    ensures EntrySteps(flow) == [first.id]
  {
    hide *;
    PairBasics(flow, first, second);
    PairFacts(flow, first, second);
    PairRouted(flow, first, second);
    if RoutedFrom(flow, first.id) {
      Fallback(flow, first.id);
      FallbackIs(flow, first.id);
    } else {
      Strict(flow, first.id);
      StrictIs(flow, first.id);
    }
  }

  lemma Strict(flow: Flow, entry: StepId)
    requires forall s :: s in flow.steps ==> (RoutedFrom(flow, s.id) <==> s.id != entry)
    ensures StrictEntry(flow, entry)
  {
  }

  lemma Fallback(flow: Flow, entry: StepId)
    requires forall s :: s in flow.steps ==>
               RoutedFrom(flow, s.id) && (ForwardRoutedFrom(flow, s.id) <==> s.id != entry)
    ensures FallbackEntry(flow, entry)
  {
  }

  lemma PairRouted(flow: Flow, first: Step, second: Step)
    requires PairShape(flow, first, second)
    ensures RoutedFrom(flow, second.id) && !ForwardRoutedFrom(flow, first.id)
    ensures RoutedFrom(flow, first.id) ==> ForwardRoutedFrom(flow, second.id)
  {
    PairBasics(flow, first, second);
    PairFacts(flow, first, second);
    ForwardAreRoutes(first);
    ForwardAreRoutes(second);
    hide AllRoutes, ForwardRoutes, Counts, PairShape, UniqueIds, FirstStep;
  }

  lemma PairFalls(flow: Flow, first: Step, second: Step, s: Step)
    requires PairShape(flow, first, second) && s in flow.steps
    ensures FallsIn(map[first.id := 1, second.id := 0], s)
  {
    PairBasics(flow, first, second);
    PairFacts(flow, first, second);
    ForwardAreRoutes(s);
    hide AllRoutes, ForwardRoutes, Counts, PairShape, UniqueIds, FirstStep;
  }

  lemma PairAccepted(flow: Flow, first: Step, second: Step)
    requires PairShape(flow, first, second)
    ensures Accepted(flow) && EntrySteps(flow) == [first.id]
  {
    hide *;
    PairBasics(flow, first, second);
    PairEntry(flow, first, second);
    forall s | s in flow.steps ensures WellMade(flow, s) && FallsIn(map[first.id := 1, second.id := 0], s) {
      PairFalls(flow, first, second, s);
      if s == first { FirstMade(flow, first, second); } else { SecondMade(flow, first, second); }
    }
    AcceptedBy(flow, first.id, map[first.id := 1, second.id := 0]);
  }

  lemma PairTargets(flow: Flow, first: Step, second: Step)
    requires PairShape(flow, first, second)
    ensures TargetsExist(flow, first) && TargetsExist(flow, second)
  {
    PairBasics(flow, first, second);
    hide AllRoutes, ForwardRoutes, StepRefs, ValidId, HumanLoopPaired, FirstStep, UniqueIds, Counts;
  }

  lemma PairNeeds(flow: Flow, first: Step, second: Step)
    requires PairShape(flow, first, second)
    ensures forall n :: n in first.needs ==> RoutesTo(flow, n, first.id)
    ensures forall n :: n in second.needs ==> RoutesTo(flow, n, second.id)
  {
    PairBasics(flow, first, second);
    hide AllRoutes, ForwardRoutes, StepRefs, ValidId, HumanLoopPaired, FirstStep, UniqueIds, Counts;
  }

  lemma FirstMade(flow: Flow, first: Step, second: Step)
    requires PairShape(flow, first, second)
    ensures WellMade(flow, first)
  {
    PairTargets(flow, first, second);
    PairNeeds(flow, first, second);
    PairSources(flow, first, second, first.id);
    hide AllRoutes, ForwardRoutes, StepRefs, ValidId, HumanLoopPaired, FirstStep, UniqueIds, Counts, RoutesTo, Sources,
         Direct, Times;
  }

  lemma PairDirect(flow: Flow, first: Step, second: Step)
    requires PairShape(flow, first, second)
    ensures Direct(flow, second.id) == {first.id}
    ensures second.needs == [] ==> |Sources(flow, second.id)| <= 1
  {
    hide *;
    PairBasics(flow, first, second);
    PairFacts(flow, first, second);
    PairSources(flow, first, second, second.id);
    PairGates(flow, first, second);
    if second.needs != [] { assert second.needs[0] in second.needs; }
    DirectIs(flow, second, first.id);
  }

  lemma PairGates(flow: Flow, first: Step, second: Step)
    requires PairShape(flow, first, second)
    ensures forall n :: n in second.needs ==> n == first.id
    ensures second.needs == [] ==> Times(AllRoutes(first), second.id) == 1
    ensures Times(AllRoutes(second), second.id) == 0
  {
    hide AllRoutes, ForwardRoutes, StepRefs, ValidId, HumanLoopPaired, Times;
  }

  /** A step whose sources and needs all are one step is directly preceded by that step. */
  lemma DirectIs(flow: Flow, s: Step, before: StepId)
    requires flow.StepOf(s.id) == Some(s) && flow.Defined(before)
    requires forall x :: x in Sources(flow, s.id) ==> x == before
    requires forall n :: n in s.needs ==> n == before
    requires s.needs == [] ==> |Sources(flow, s.id)| == 1
    requires s.needs != [] ==> before in s.needs
    ensures Direct(flow, s.id) == {before}
  {
    hide Sources, FirstStep;
    var sources := Sources(flow, s.id);
    if |sources| == 1 { assert sources[0] in sources; }
  }

  lemma SecondMade(flow: Flow, first: Step, second: Step)
    requires PairShape(flow, first, second)
    ensures WellMade(flow, second)
  {
    PairTargets(flow, first, second);
    PairNeeds(flow, first, second);
    PairDirect(flow, first, second);
    hide AllRoutes, ForwardRoutes, StepRefs, ValidId, HumanLoopPaired, FirstStep, UniqueIds, Counts, RoutesTo, Sources,
         Times, Direct;
  }

  // ----- fan-out ------------------------------------------------------------------------

  /** A step fans out to two others, a gate needs both, and a last step collects the failures
      of all three. */
  ghost predicate FanShape(flow: Flow, build: Step, left: Step, right: Step, gate: Step, report: Step) {
    && flow.steps == [build, left, right, gate, report] && UniqueIds(flow)
    && (forall s :: s in flow.steps ==>
        Bare(s) && !s.humanLoop && s.onApprove.None? && s.onReject.None? && s.id != DONE)
    && build.onSuccess == Some(Many([left.id, right.id])) && build.needs == []
    && left.onSuccess == right.onSuccess == Some(One(gate.id)) && left.needs == right.needs == [build.id]
    && build.onFailure == left.onFailure == right.onFailure == Some(One(report.id))
    && gate.onSuccess == report.onSuccess == Some(One(DONE)) && gate.onFailure == report.onFailure == None
    && gate.needs == [left.id, right.id] && report.needs == [build.id, left.id, right.id]
  }

  /** No template mentions another step. */
  predicate Bare(s: Step) {
    ValidId(s.id) && s.with == PLAIN && s.rejectInput.None?
  }

  /** A step that no person decides on. */
  predicate Unattended(s: Step) {
    !s.humanLoop && s.onApprove.None? && s.onReject.None?
  }

  lemma UnattendedRoutes(s: Step)
    requires Unattended(s)
    ensures ForwardRoutes(s) == RouteTargets(s.onSuccess)
    ensures AllRoutes(s) == RouteTargets(s.onSuccess) + RouteTargets(s.onFailure)
    ensures forall t :: Counts(s, t) <==> t != DONE
  {
    var a, b := RouteTargets(s.onSuccess), RouteTargets(s.onFailure);
    assert a + [] + [] == a && a + b + [] + [] == a + b;
  }

  lemma FanMember(flow: Flow, build: Step, left: Step, right: Step, gate: Step, report: Step, s: Step)
    requires FanShape(flow, build, left, right, gate, report) && s in flow.steps
    ensures s == build || s == left || s == right || s == gate || s == report
  {
  }

  lemma FanMembers(flow: Flow, build: Step, left: Step, right: Step, gate: Step, report: Step)
    requires FanShape(flow, build, left, right, gate, report)
    ensures build in flow.steps && left in flow.steps && right in flow.steps && gate in flow.steps
    ensures report in flow.steps
    ensures flow.Defined(build.id) && flow.Defined(left.id) && flow.Defined(right.id) && flow.Defined(gate.id)
    ensures flow.Defined(report.id)
  {
    assert flow.steps[0] == build && flow.steps[1] == left && flow.steps[2] == right && flow.steps[3] == gate
        && flow.steps[4] == report;
    hide FirstStep;
  }

  lemma FanDistinct(flow: Flow, build: Step, left: Step, right: Step, gate: Step, report: Step)
    requires FanShape(flow, build, left, right, gate, report)
    ensures build.id != left.id && build.id != right.id && build.id != gate.id && build.id != report.id
    ensures left.id != right.id && left.id != gate.id && left.id != report.id
    ensures right.id != gate.id && right.id != report.id && gate.id != report.id
    ensures build.id != DONE && left.id != DONE && right.id != DONE && gate.id != DONE && report.id != DONE
  {
    assert flow.steps[0] == build && flow.steps[1] == left && flow.steps[2] == right && flow.steps[3] == gate
        && flow.steps[4] == report;
  }

  lemma FanRoutes(flow: Flow, build: Step, left: Step, right: Step, gate: Step, report: Step)
    requires FanShape(flow, build, left, right, gate, report)
    ensures ForwardRoutes(build) == [left.id, right.id] && AllRoutes(build) == [left.id, right.id, report.id]
    ensures ForwardRoutes(left) == [gate.id] && AllRoutes(left) == [gate.id, report.id]
    ensures ForwardRoutes(right) == [gate.id] && AllRoutes(right) == [gate.id, report.id]
    ensures ForwardRoutes(gate) == [DONE] && AllRoutes(gate) == [DONE]
    ensures ForwardRoutes(report) == [DONE] && AllRoutes(report) == [DONE]
  {
    hide *;
    FanListed(flow, build, left, right, gate, report);
    ThreeRoutes(build, left.id, right.id, report.id);
    TwoRoutes(left, gate.id, report.id);
    TwoRoutes(right, gate.id, report.id);
    OneRoute(gate);
    OneRoute(report);
  }

  lemma FanListed(flow: Flow, build: Step, left: Step, right: Step, gate: Step, report: Step)
    requires FanShape(flow, build, left, right, gate, report)
    ensures Unattended(build) && Unattended(left) && Unattended(right) && Unattended(gate) && Unattended(report)
    ensures build.onSuccess == Some(Many([left.id, right.id]))
    ensures left.onSuccess == right.onSuccess == Some(One(gate.id))
    ensures build.onFailure == left.onFailure == right.onFailure == Some(One(report.id))
    ensures gate.onSuccess == report.onSuccess == Some(One(DONE)) && gate.onFailure == report.onFailure == None
  {
    FanMembers(flow, build, left, right, gate, report);
  }

  lemma ThreeRoutes(s: Step, a: StepId, b: StepId, c: StepId)
    requires Unattended(s) && s.onSuccess == Some(Many([a, b])) && s.onFailure == Some(One(c))
    ensures ForwardRoutes(s) == [a, b] && AllRoutes(s) == [a, b, c]
  {
    UnattendedRoutes(s);
  }

  lemma TwoRoutes(s: Step, a: StepId, c: StepId)
    requires Unattended(s) && s.onSuccess == Some(One(a)) && s.onFailure == Some(One(c))
    ensures ForwardRoutes(s) == [a] && AllRoutes(s) == [a, c]
  {
    UnattendedRoutes(s);
  }

  lemma OneRoute(s: Step)
    requires Unattended(s) && s.onSuccess == Some(One(DONE)) && s.onFailure == None
    ensures ForwardRoutes(s) == [DONE] && AllRoutes(s) == [DONE]
  {
    UnattendedRoutes(s);
  }

  lemma FanCounts(flow: Flow, build: Step, left: Step, right: Step, gate: Step, report: Step, s: Step)
    requires FanShape(flow, build, left, right, gate, report) && s in flow.steps
    ensures forall t :: Counts(s, t) <==> t != DONE
    ensures ValidId(s.id) && TemplateRefs(s) == [] && HumanLoopPaired(flow, s) && RejectInputLoops(flow, s)
  {
    UnattendedRoutes(s);
    NoRefs(s);
  }

  lemma FanTargets(flow: Flow, build: Step, left: Step, right: Step, gate: Step, report: Step, s: Step)
    requires FanShape(flow, build, left, right, gate, report) && s in flow.steps
    ensures forall t :: t in AllRoutes(s) ==> TargetIsValid(flow, t)
  {
    hide *;
    FanMember(flow, build, left, right, gate, report, s);
    FanMembers(flow, build, left, right, gate, report);
    FanRoutes(flow, build, left, right, gate, report);
    ValidTarget(flow, DONE);
    ValidTarget(flow, left.id);
    ValidTarget(flow, right.id);
    ValidTarget(flow, gate.id);
    ValidTarget(flow, report.id);
    if s == build {
      InThree(left.id, right.id, report.id);
    } else if s == gate || s == report {
      InOne(DONE);
    } else {
      InTwo(gate.id, report.id);
    }
  }

  lemma InThree(a: StepId, b: StepId, c: StepId)
    ensures forall t :: t in [a, b, c] <==> t == a || t == b || t == c
  {
  }

  lemma InTwo(a: StepId, b: StepId)
    ensures forall t :: t in [a, b] <==> t == a || t == b
  {
  }

  lemma InOne(a: StepId)
    ensures forall t :: t in [a] <==> t == a
  {
  }

  lemma ValidTarget(flow: Flow, t: StepId)
    requires t == DONE || flow.Defined(t)
    ensures TargetIsValid(flow, t)
  {
  }

  lemma Routed(flow: Flow, r: Step, target: StepId)
    requires r in flow.steps && target in AllRoutes(r) && Counts(r, target)
    ensures RoutesTo(flow, r.id, target) && RoutedFrom(flow, target)
  {
  }

  lemma FanRouted(flow: Flow, build: Step, left: Step, right: Step, gate: Step, report: Step, r: Step, target: StepId)
    requires FanShape(flow, build, left, right, gate, report) && r in flow.steps && target in AllRoutes(r)
    requires target != DONE
    ensures RoutesTo(flow, r.id, target) && RoutedFrom(flow, target)
  {
    FanCounts(flow, build, left, right, gate, report, r);
    hide *;
    Routed(flow, r, target);
  }

  lemma FanEntry(flow: Flow, build: Step, left: Step, right: Step, gate: Step, report: Step)
    requires FanShape(flow, build, left, right, gate, report)
    ensures !RoutedFrom(flow, build.id)
  {
    FanRoutes(flow, build, left, right, gate, report);
    FanDistinct(flow, build, left, right, gate, report);
    hide ForwardRoutes, AllRoutes, Counts, UniqueIds, Bare;
    forall r | r in flow.steps
      ensures build.id !in AllRoutes(r) { FanMember(flow, build, left, right, gate, report, r); }
  }

  lemma FanNeeds(flow: Flow, build: Step, left: Step, right: Step, gate: Step, report: Step)
    requires FanShape(flow, build, left, right, gate, report)
    ensures RoutesTo(flow, build.id, left.id) && RoutesTo(flow, build.id, right.id)
    ensures RoutesTo(flow, left.id, gate.id) && RoutesTo(flow, right.id, gate.id)
    ensures RoutesTo(flow, build.id, report.id) && RoutesTo(flow, left.id, report.id)
    ensures RoutesTo(flow, right.id, report.id)
    ensures RoutedFrom(flow, left.id) && RoutedFrom(flow, right.id) && RoutedFrom(flow, gate.id)
    ensures RoutedFrom(flow, report.id)
  {
    FanMembers(flow, build, left, right, gate, report);
    FanRoutes(flow, build, left, right, gate, report);
    FanDistinct(flow, build, left, right, gate, report);
    hide *;
    FanRouted(flow, build, left, right, gate, report, build, left.id);
    FanRouted(flow, build, left, right, gate, report, build, right.id);
    FanRouted(flow, build, left, right, gate, report, left, gate.id);
    FanRouted(flow, build, left, right, gate, report, right, gate.id);
    FanRouted(flow, build, left, right, gate, report, build, report.id);
    FanRouted(flow, build, left, right, gate, report, left, report.id);
    FanRouted(flow, build, left, right, gate, report, right, report.id);
  }

  lemma FanGates(flow: Flow, build: Step, left: Step, right: Step, gate: Step, report: Step)
    requires FanShape(flow, build, left, right, gate, report)
    ensures build.needs == [] && left.needs == [build.id] && right.needs == [build.id]
    ensures gate.needs == [left.id, right.id] && report.needs == [build.id, left.id, right.id]
    ensures UniqueIds(flow)
  {
  }

  lemma FanMade(flow: Flow, build: Step, left: Step, right: Step, gate: Step, report: Step, s: Step)
    requires FanShape(flow, build, left, right, gate, report) && s in flow.steps
    ensures WellMade(flow, s)
  {
    hide *;
    FanMember(flow, build, left, right, gate, report, s);
    FanMembers(flow, build, left, right, gate, report);
    FanGates(flow, build, left, right, gate, report);
    FanTargets(flow, build, left, right, gate, report, s);
    FanNeeds(flow, build, left, right, gate, report);
    FanCounts(flow, build, left, right, gate, report, s);
    FanEntry(flow, build, left, right, gate, report);
    if s == build {
      Unrouted(flow, build.id);
    } else if s == gate {
      InTwo(left.id, right.id);
    } else if s == report {
      InThree(build.id, left.id, right.id);
    } else {
      InOne(build.id);
    }
    Made(flow, s);
  }

  lemma Made(flow: Flow, s: Step)
    requires ValidId(s.id) && HumanLoopPaired(flow, s) && RejectInputLoops(flow, s) && TemplateRefs(s) == []
    requires forall t :: t in AllRoutes(s) ==> TargetIsValid(flow, t)
    requires forall n :: n in s.needs ==> RoutesTo(flow, n, s.id) && flow.Defined(n)
    requires s.needs == [] ==> |Sources(flow, s.id)| <= 1
    ensures WellMade(flow, s)
  {
    hide TemplateRefs, AllRoutes, Sources, Direct, RoutesTo, TargetIsValid;
  }

  lemma FanFalls(flow: Flow, build: Step, left: Step, right: Step, gate: Step, report: Step, rank: map<StepId, nat>,
                 s: Step)
    requires FanShape(flow, build, left, right, gate, report) && s in flow.steps
    requires rank == map[build.id := 2, left.id := 1, right.id := 1, gate.id := 0, report.id := 0]
    ensures FallsIn(rank, s)
  {
    hide *;
    FanMember(flow, build, left, right, gate, report, s);
    FanRoutes(flow, build, left, right, gate, report);
    FanDistinct(flow, build, left, right, gate, report);
    InTwo(left.id, right.id);
    InOne(gate.id);
    InOne(DONE);
    Falls(rank, s);
  }

  lemma Falls(rank: map<StepId, nat>, s: Step)
    requires forall t :: t in ForwardRoutes(s) && t != DONE ==> s.id in rank && t in rank && rank[t] < rank[s.id]
    ensures FallsIn(rank, s)
  {
    hide ForwardRoutes;
  }

  lemma FanAccepted(flow: Flow, build: Step, left: Step, right: Step, gate: Step, report: Step)
    requires FanShape(flow, build, left, right, gate, report)
    ensures Accepted(flow) && EntrySteps(flow) == [build.id]
  {
    var rank := map[build.id := 2, left.id := 1, right.id := 1, gate.id := 0, report.id := 0];
    hide *;
    FanMembers(flow, build, left, right, gate, report);
    FanGates(flow, build, left, right, gate, report);
    forall s | s in flow.steps ensures WellMade(flow, s) && FallsIn(rank, s) {
      FanMade(flow, build, left, right, gate, report, s);
      FanFalls(flow, build, left, right, gate, report, rank, s);
    }
    FanStrict(flow, build, left, right, gate, report);
    StrictIs(flow, build.id);
    AcceptedBy(flow, build.id, rank);
  }

  lemma FanStrict(flow: Flow, build: Step, left: Step, right: Step, gate: Step, report: Step)
    requires FanShape(flow, build, left, right, gate, report)
    ensures StrictEntry(flow, build.id)
  {
    hide *;
    forall s | s in flow.steps ensures RoutedFrom(flow, s.id) <==> s.id != build.id {
      FanStrictAt(flow, build, left, right, gate, report, s);
    }
    assert StrictEntry(flow, build.id) by { Strict(flow, build.id); }
  }

  lemma FanStrictAt(flow: Flow, build: Step, left: Step, right: Step, gate: Step, report: Step, s: Step)
    requires FanShape(flow, build, left, right, gate, report) && s in flow.steps
    ensures RoutedFrom(flow, s.id) <==> s.id != build.id
  {
    hide *;
    FanMember(flow, build, left, right, gate, report, s);
    FanNeeds(flow, build, left, right, gate, report);
    FanEntry(flow, build, left, right, gate, report);
    FanDistinct(flow, build, left, right, gate, report);
  }

  const BUILD: Step :=
    Step("build", PLAIN, false, 0, None, Some(Many(["checks", "unit-tests"])), Some(One("report-failure")), None, None,
         [])
  const CHECKS: Step :=
    Step("checks", PLAIN, false, 0, None, Some(One("gate-all")), Some(One("report-failure")), None, None, ["build"])
  const TESTS: Step :=
    Step("unit-tests", PLAIN, false, 0, None, Some(One("gate-all")), Some(One("report-failure")), None, None, ["build"])
  const GATE: Step :=
    Step("gate-all", PLAIN, false, 0, None, Some(One(DONE)), None, None, None, ["checks", "unit-tests"])
  const REPORT: Step :=
    Step("report-failure", PLAIN, false, 0, None, Some(One(DONE)), None, None, None, ["build", "checks", "unit-tests"])

  const FAN_OUT: Flow := FlowOf("fan-out", [BUILD, CHECKS, TESTS, GATE, REPORT])

  lemma FanOutIds()
    ensures UniqueIds(FAN_OUT)
    ensures BUILD.id != DONE && CHECKS.id != DONE && TESTS.id != DONE && GATE.id != DONE && REPORT.id != DONE
  {
    assert |BUILD.id| == 5 && |CHECKS.id| == 6 && |TESTS.id| == 10 && |GATE.id| == 8 && |REPORT.id| == 14
        && |DONE| == 4;
  }

  lemma FanOutBare()
    ensures Bare(BUILD) && Bare(CHECKS) && Bare(GATE)
  {
  }

  lemma FanOutBareToo()
    ensures Bare(TESTS) && Bare(REPORT)
  {
  }

  lemma FanOutShape()
    ensures FanShape(FAN_OUT, BUILD, CHECKS, TESTS, GATE, REPORT)
  {
    FanOutIds();
    FanOutBare();
    FanOutBareToo();
    hide UniqueIds, Bare;
  }
}
