/** Runs end: when the whole routing graph is layered, apart from rejections that loop back,
    every accepted step event other than such a rejection lowers a weight, so the number of
    step events is bounded by the flow and by how often somebody rejects. */
module Termination {
  import opened Wrappers
  import opened FlowTypes
  import opened Template
  import opened RunTypes
  import opened Engine
  import opened Store
  import opened Scheduler
  import opened Core
  import opened Machine
  import opened Invariants
  import Dag

  // ----- layered flows ------------------------------------------------------------------

  /** Where a step can hand over to: a human step is approved or rejected, any other step just
      succeeds, and both may fail. A rejection that loops back is left aside. */
  function HandoverTargets(step: Step): seq<StepId> {
    RouteTargets(step.onFailure) + DecidedTargets(step)
  }

  function DecidedTargets(step: Step): seq<StepId> {
    if !step.humanLoop then RouteTargets(step.onSuccess)
    else RouteTargets(step.onApprove) + (if Dag.IsSelfRejectLoop(step) then [] else RouteTargets(step.onReject))
  }

  /** Only human steps wait for approval. */
  ghost predicate HumanWaits(flow: Flow, steps: Steps) {
    forall id :: id in steps && steps[id].status.WaitingApproval? && flow.Defined(id) ==>
        flow.StepOf(id).value.humanLoop
  }

  predicate IsStep(flow: Flow, id: StepId) {
    id != DONE && flow.Defined(id)
  }

  /** Every handover, `on_failure` included, goes to a lower layer. */
  ghost predicate Layered(flow: Flow, rank: map<StepId, nat>, top: nat) {
    forall id :: flow.Defined(id) ==>
      && id in rank && rank[id] < top
      && (forall t :: t in HandoverTargets(flow.StepOf(id).value) && IsStep(flow, t) ==>
          t in rank && rank[t] < rank[id])
  }

  function RetriesOf(flow: Flow, id: StepId): nat
    requires flow.Defined(id)
  {
    flow.StepOf(id).value.retries
  }

  // ----- weights ------------------------------------------------------------------------

  /** What is left to do below a step: more than everything it can hand over to. */
  ghost function Below(flow: Flow, rank: map<StepId, nat>, top: nat, id: StepId): nat
    requires Layered(flow, rank, top) && flow.Defined(id)
    decreases rank[id], 1, 0
  {
    1 + SumFull(flow, rank, top, HandoverTargets(flow.StepOf(id).value), rank[id])
  }

  /** The most a new activation of each target can weigh, summed. */
  ghost function SumFull(flow: Flow, rank: map<StepId, nat>, top: nat, targets: seq<StepId>, limit: nat): nat
    requires Layered(flow, rank, top)
    requires forall t :: t in targets && IsStep(flow, t) ==> t in rank && rank[t] < limit
    decreases limit, 0, |targets|
  {
    if targets == [] then 0
    else
      var n := |targets| - 1;
      assert targets[n] in targets;
      SumFull(flow, rank, top, targets[..n], limit)
      + (if IsStep(flow, targets[n]) then Below(flow, rank, top, targets[n]) + 1 + RetriesOf(flow, targets[n]) else 0)
  }

  function RetriesLeft(flow: Flow, id: StepId, attempt: nat): nat
    requires flow.Defined(id)
  {
    if attempt <= RetriesOf(flow, id) then RetriesOf(flow, id) - attempt + 1 else 0
  }

  /** The weight of one latest attempt. */
  ghost function Weight(flow: Flow, rank: map<StepId, nat>, top: nat, steps: Steps, id: StepId): nat
    requires Layered(flow, rank, top)
  {
    if id !in steps || !flow.Defined(id) then 0
    else match steps[id].status
      case Running => Below(flow, rank, top, id) + 1 + RetriesLeft(flow, id, steps[id].attempt)
      case WaitingApproval => Below(flow, rank, top, id)
      case _ => 0
  }

  ghost function TotalIn(flow: Flow, rank: map<StepId, nat>, top: nat, list: seq<Step>, steps: Steps): nat
    requires Layered(flow, rank, top)
  {
    if list == [] then 0
    else
      var n := |list| - 1;
      TotalIn(flow, rank, top, list[..n], steps) + Weight(flow, rank, top, steps, list[n].id)
  }

  ghost function Total(flow: Flow, rank: map<StepId, nat>, top: nat, steps: Steps): nat
    requires Layered(flow, rank, top)
  {
    TotalIn(flow, rank, top, flow.steps, steps)
  }

  // ----- how the total changes ----------------------------------------------------------

  ghost predicate SameBut(a: Steps, b: Steps, id: StepId) {
    forall x :: x != id ==> (x in a <==> x in b) && (x in a ==> a[x] == b[x])
  }

  /** Changing the row of one step changes the total by the change of its weight. */
  lemma {:induction false} TotalChange(flow: Flow, rank: map<StepId, nat>, top: nat, list: seq<Step>, a: Steps,
                                       b: Steps, id: StepId)
    requires Layered(flow, rank, top) && DistinctIds(list) && SameBut(a, b, id)
    ensures TotalIn(flow, rank, top, list, a)
            + (if exists s :: s in list && s.id == id then Weight(flow, rank, top, b, id) else 0)
            == TotalIn(flow, rank, top, list, b)
                + (if exists s :: s in list && s.id == id then Weight(flow, rank, top, a, id) else 0)
  {
    hide Layered, Weight;
    if list != [] {
      var n := |list| - 1;
      assert DistinctIds(list[..n]);
      TotalChange(flow, rank, top, list[..n], a, b, id);
      assert list == list[..n] + [list[n]];
      if list[n].id == id {
        assert list[n] in list;
        forall s | s in list[..n] ensures s.id != id {
          var i :| 0 <= i < n && list[i] == s;
        }
      } else {
        SameWeight(flow, rank, top, a, b, id, list[n].id);
      }
    }
  }

  lemma SameWeight(flow: Flow, rank: map<StepId, nat>, top: nat, a: Steps, b: Steps, id: StepId, x: StepId)
    requires Layered(flow, rank, top) && SameBut(a, b, id) && x != id
    ensures Weight(flow, rank, top, a, x) == Weight(flow, rank, top, b, x)
  {
  }

  lemma TotalStep(flow: Flow, rank: map<StepId, nat>, top: nat, a: Steps, b: Steps, id: StepId)
    requires Layered(flow, rank, top) && UniqueIds(flow) && SameBut(a, b, id) && flow.Defined(id)
    ensures Total(flow, rank, top, a) + Weight(flow, rank, top, b, id) == Total(flow, rank, top, b)
            + Weight(flow, rank, top, a, id)
  {
    hide Layered, Weight, TotalIn;
    assert flow.StepOf(id).value in flow.steps;
    TotalChange(flow, rank, top, flow.steps, a, b, id);
  }

  /** Cancelling never adds weight. */
  lemma {:induction false} CancelsLighten(flow: Flow, rank: map<StepId, nat>, top: nat, list: seq<Step>, steps: Steps,
                                          ids: seq<StepId>)
    requires Layered(flow, rank, top)
    ensures TotalIn(flow, rank, top, list, CancelIds(steps, ids)) <= TotalIn(flow, rank, top, list, steps)
  {
    hide Layered, Weight, CancelIds;
    if list != [] {
      var n := |list| - 1;
      CancelsLighten(flow, rank, top, list[..n], steps, ids);
      CancelLightens(flow, rank, top, steps, ids, list[n].id);
    }
  }

  lemma CancelLightens(flow: Flow, rank: map<StepId, nat>, top: nat, steps: Steps, ids: seq<StepId>, id: StepId)
    requires Layered(flow, rank, top)
    ensures Weight(flow, rank, top, CancelIds(steps, ids), id) <= Weight(flow, rank, top, steps, id)
  {
    hide Layered, Below;
    CancelIdsAt(steps, ids);
  }

  ghost function ActSum(flow: Flow, rank: map<StepId, nat>, top: nat, acts: seq<StepActivation>): nat
    requires Layered(flow, rank, top)
  {
    if acts == [] then 0
    else
      var n := |acts| - 1;
      ActSum(flow, rank, top, acts[..n])
      + (if flow.Defined(acts[n].stepId)
         then Below(flow, rank, top, acts[n].stepId) + 1 + RetriesOf(flow, acts[n].stepId) else 0)
  }

  /** Activations add at most what new attempts of their steps can weigh. */
  lemma {:induction false} OverlayAdds(flow: Flow, rank: map<StepId, nat>, top: nat, steps: Steps,
                                       acts: seq<StepActivation>)
    requires Layered(flow, rank, top) && UniqueIds(flow)
    requires forall a :: a in acts ==> flow.Defined(a.stepId) && a.attempt >= 1
    ensures Total(flow, rank, top, Overlay(steps, acts)) <= Total(flow, rank, top, steps)
            + ActSum(flow, rank, top, acts)
  {
    hide Layered, Below, Total, Weight, UniqueIds;
    if acts != [] {
      var n := |acts| - 1;
      assert acts[n] in acts && forall a :: a in acts[..n] ==> a in acts;
      OverlayAdds(flow, rank, top, steps, acts[..n]);
      var before, id := Overlay(steps, acts[..n]), acts[n].stepId;
      var after := before[id := ActivatedRun(acts[n])];
      TotalStep(flow, rank, top, before, after, id);
      FreshWeight(flow, rank, top, after, acts[n]);
    }
  }

  lemma FreshWeight(flow: Flow, rank: map<StepId, nat>, top: nat, steps: Steps, act: StepActivation)
    requires Layered(flow, rank, top) && flow.Defined(act.stepId) && act.attempt >= 1
    requires act.stepId in steps && steps[act.stepId] == ActivatedRun(act)
    ensures Weight(flow, rank, top, steps, act.stepId) ==
            Below(flow, rank, top, act.stepId) + 1 + RetriesLeft(flow, act.stepId, act.attempt)
    ensures RetriesLeft(flow, act.stepId, act.attempt) <= RetriesOf(flow, act.stepId)
  {
    hide Layered, Below;
  }

  lemma {:induction false} ActSumPrefix(flow: Flow, rank: map<StepId, nat>, top: nat, acts: seq<StepActivation>, j: nat)
    requires Layered(flow, rank, top) && j <= |acts|
    ensures ActSum(flow, rank, top, acts[..j]) <= ActSum(flow, rank, top, acts)
    decreases |acts| - j
  {
    hide Layered, Below;
    if j == |acts| {
      assert acts[..j] == acts;
    } else {
      ActSumPrefix(flow, rank, top, acts, j + 1);
      assert acts[..j + 1][..j] == acts[..j];
    }
  }

  lemma {:induction false} ActSumConcat(flow: Flow, rank: map<StepId, nat>, top: nat, a: seq<StepActivation>,
                                        b: seq<StepActivation>)
    requires Layered(flow, rank, top)
    ensures ActSum(flow, rank, top, a + b) == ActSum(flow, rank, top, a) + ActSum(flow, rank, top, b)
    decreases |b|
  {
    hide Layered, Below;
    if b == [] {
      assert a + b == a;
    } else {
      var n := |b| - 1;
      assert (a + b)[..|a + b| - 1] == a + b[..n];
      ActSumConcat(flow, rank, top, a, b[..n]);
    }
  }

  lemma {:induction false} SumFullConcat(flow: Flow, rank: map<StepId, nat>, top: nat, a: seq<StepId>, b: seq<StepId>,
                                         limit: nat)
    requires Layered(flow, rank, top)
    requires forall t :: t in a + b && IsStep(flow, t) ==> t in rank && rank[t] < limit
    ensures forall t :: t in a && IsStep(flow, t) ==> t in rank && rank[t] < limit
    ensures forall t :: t in b && IsStep(flow, t) ==> t in rank && rank[t] < limit
    ensures SumFull(flow, rank, top, a + b, limit) == SumFull(flow, rank, top, a, limit)
            + SumFull(flow, rank, top, b, limit)
    decreases |b|
  {
    hide Layered, Below, IsStep;
    assert forall t :: t in a ==> t in a + b;
    assert forall t :: t in b ==> t in a + b;
    if b == [] {
      assert a + b == a;
    } else {
      var n := |b| - 1;
      assert (a + b)[..|a + b| - 1] == a + b[..n];
      assert forall t :: t in a + b[..n] ==> t in a + b;
      SumFullConcat(flow, rank, top, a, b[..n], limit);
    }
  }

  /** What a list of targets activates weighs no more than all of the targets could. */
  lemma {:induction false} ActivationsBounded(flow: Flow, rank: map<StepId, nat>, top: nat, state: RunState,
                                              ctx: TemplateContext, targets: seq<StepId>, limit: nat)
    requires Layered(flow, rank, top) && ActivateTargets(flow, state, ctx, targets).Ok?
    requires forall t :: t in targets && IsStep(flow, t) ==> t in rank && rank[t] < limit
    ensures ActSum(flow, rank, top, ActivateTargets(flow, state, ctx, targets).value)
            <= SumFull(flow, rank, top, targets, limit)
    decreases |targets|
  {
    hide Layered, Below;
    if targets != [] {
      var first, rest := [targets[0]], targets[1..];
      assert targets == first + rest;
      SumFullConcat(flow, rank, top, first, rest, limit);
      ActivationsBounded(flow, rank, top, state, ctx, rest, limit);
      var one := ActivateOne(flow, state, ctx, targets[0]).value;
      ActSumConcat(flow, rank, top, one, ActivateTargets(flow, state, ctx, rest).value);
      OneBounded(flow, rank, top, state, ctx, targets[0], limit);
    }
  }

  lemma OneBounded(flow: Flow, rank: map<StepId, nat>, top: nat, state: RunState, ctx: TemplateContext, target: StepId,
                   limit: nat)
    requires Layered(flow, rank, top) && ActivateOne(flow, state, ctx, target).Ok?
    requires IsStep(flow, target) ==> target in rank && rank[target] < limit
    ensures ActSum(flow, rank, top, ActivateOne(flow, state, ctx, target).value)
            <= SumFull(flow, rank, top, [target], limit)
  {
    hide Layered, Below;
    var acts := ActivateOne(flow, state, ctx, target).value;
    assert [target][..0] == [];
    if acts != [] { assert acts == [acts[0]] && acts[..0] == []; }
  }

  // ----- one event ----------------------------------------------------------------------

  /** All activations along one of a step's handover routes weigh less than the step. */
  lemma RouteBelow(flow: Flow, rank: map<StepId, nat>, top: nat, id: StepId, targets: seq<StepId>)
    requires Layered(flow, rank, top) && flow.Defined(id)
    requires var step := flow.StepOf(id).value;
             || targets == RouteTargets(step.onFailure)
             || (!step.humanLoop && targets == RouteTargets(step.onSuccess))
             || (step.humanLoop && targets == RouteTargets(step.onApprove))
             || (step.humanLoop && targets == RouteTargets(step.onReject) && !Dag.IsSelfRejectLoop(step))
    ensures forall t :: t in targets && IsStep(flow, t) ==> t in rank && rank[t] < rank[id]
    ensures SumFull(flow, rank, top, targets, rank[id]) < Below(flow, rank, top, id)
  {
    var step := flow.StepOf(id).value;
    var a, b := RouteTargets(step.onFailure), DecidedTargets(step);
    var c, d := RouteTargets(step.onApprove), if Dag.IsSelfRejectLoop(step) then [] else RouteTargets(step.onReject);
    assert HandoverTargets(step) == a + b && (step.humanLoop ==> b == c + d);
    assert forall t :: t in a + b && IsStep(flow, t) ==> t in rank && rank[t] < rank[id];
    hide Layered, IsStep, RouteTargets;
    SumFullConcat(flow, rank, top, a, b, rank[id]);
    if step.humanLoop { SumFullConcat(flow, rank, top, c, d, rank[id]); }
  }

  predicate LoopsBack(flow: Flow, event: Event) {
    event.StepRejected? && flow.Defined(event.stepId) && Dag.IsSelfRejectLoop(flow.StepOf(event.stepId).value)
  }

  /** The weight the event's own step gives up when it is marked. */
  lemma MarkLightens(flow: Flow, rank: map<StepId, nat>, top: nat, state: RunState, event: Event, e: Effect)
    requires Layered(flow, rank, top) && UniqueIds(flow)
    requires StepEvent(event) && Enabled(state, event) && NextIsMarked(state, event, e)
    requires e.mark.Some? && flow.Defined(event.stepId)
    ensures var below := Below(flow, rank, top, event.stepId);
            Total(flow, rank, top, e.next.steps)
            + (if e.mark.value.status.WaitingApproval? then 1 else below) <= Total(flow, rank, top, state.steps)
            || (e.mark.value.status.WaitingApproval? && HasStatus(state, event.stepId, WaitingApproval))
  {
    hide Layered, Below, UniqueIds, Total, CancelIds;
    var id := event.stepId;
    var marked := MarkedSteps(state.steps, event, e.mark);
    TotalStep(flow, rank, top, state.steps, marked, id);
    NextLighter(flow, rank, top, marked, e);
    MarkedWeight(flow, rank, top, state, event, e.mark.value.status);
  }

  lemma NextLighter(flow: Flow, rank: map<StepId, nat>, top: nat, marked: Steps, e: Effect)
    requires Layered(flow, rank, top) && e.next.steps == CancelIds(marked, e.cancels)
    ensures Total(flow, rank, top, e.next.steps) <= Total(flow, rank, top, marked)
  {
    hide Layered, TotalIn;
    CancelsLighten(flow, rank, top, flow.steps, marked, e.cancels);
  }

  lemma MarkedWeight(flow: Flow, rank: map<StepId, nat>, top: nat, state: RunState, event: Event, status: StepStatus)
    requires Layered(flow, rank, top) && StepEvent(event) && Enabled(state, event) && flow.Defined(event.stepId)
    requires Settles(status)
    ensures var id := event.stepId;
            var marked := MarkedSteps(state.steps, event, Some(Mark(id, status)));
            && Weight(flow, rank, top, marked, id)
                == (if status.WaitingApproval? then Below(flow, rank, top, id) else 0)
            && Weight(flow, rank, top, state.steps, id) >= Below(flow, rank, top, id)
            && (HasStatus(state, id, StepStatus.Running) ==>
                Weight(flow, rank, top, state.steps, id) > Below(flow, rank, top, id))
  {
    hide Layered, Below;
  }

  lemma EventDefined(flow: Flow, state: RunState, event: Event, e: Effect)
    requires StepEvent(event) && Transition(flow, state, event) == Ok(e)
    ensures flow.Defined(event.stepId)
    ensures e.mark.Some? && e.mark.value.status.WaitingApproval? ==> event.StepCompleted? && e.activations == []
    ensures e.mark.None? <==> event.StepFailed? && Reruns(flow, state, event)
    ensures e.mark.None? ==> e.cancels == [] && e.next == state
  {
    hide ActivateTargets, BuildContext, AllTerminal, Phase, Unreached, ActiveExcluding;
  }

  /** A retry gives up one retry. */
  lemma RetryLightens(flow: Flow, rank: map<StepId, nat>, top: nat, state: RunState, event: Event, act: StepActivation)
    requires Layered(flow, rank, top) && UniqueIds(flow)
    requires event.StepFailed? && Enabled(state, event) && Reruns(flow, state, event)
    requires act.stepId == event.stepId && act.attempt == NextAttempt(state, event.stepId)
    ensures Total(flow, rank, top, state.steps[act.stepId := ActivatedRun(act)]) < Total(flow, rank, top, state.steps)
  {
    hide Layered, Below, UniqueIds, Total;
    var after := state.steps[act.stepId := ActivatedRun(act)];
    TotalStep(flow, rank, top, state.steps, after, act.stepId);
    FreshWeight(flow, rank, top, after, act);
  }

  /** The activations of an effect weigh no more than the targets it follows could. */
  lemma EffectAdds(flow: Flow, rank: map<StepId, nat>, top: nat, r: Run, event: Event, e: Effect, j: nat)
    requires Layered(flow, rank, top) && UniqueIds(flow) && j <= |e.activations|
    requires NextAttempts(flow, e.next.steps, e.activations)
    ensures Total(flow, rank, top, After(r, e, j).state.steps) <= Total(flow, rank, top, e.next.steps)
            + ActSum(flow, rank, top, e.activations)
  {
    hide Layered, UniqueIds, Total, ActSum;
    assert forall a :: a in e.activations[..j] ==> a in e.activations;
    OverlayAdds(flow, rank, top, e.next.steps, e.activations[..j]);
    ActSumPrefix(flow, rank, top, e.activations, j);
  }

  lemma RoutedAdds(flow: Flow, rank: map<StepId, nat>, top: nat, state: RunState, event: Event, e: Effect)
    requires Layered(flow, rank, top) && StepEvent(event) && flow.Defined(event.stepId)
    requires HumanWaits(flow, state.steps) && Enabled(state, event)
    requires Activates(flow, state, event, e) && !Reruns(flow, state, event)
    ensures ActSum(flow, rank, top, e.activations) < Below(flow, rank, top, event.stepId)
  {
    var id := event.stepId;
    var targets := TargetsOf(flow, state, event);
    if event.StepCompleted? && flow.StepOf(id).value.humanLoop {
      assert ActSum(flow, rank, top, []) == 0;
    } else {
      hide Layered, Below, SumFull, ActSum, ActivateTargets, BuildContext;
      RouteBelow(flow, rank, top, id, targets);
      ActivationsBounded(flow, rank, top, e.next, BuildContext(flow, e.next), targets, rank[id]);
    }
  }

  /** Every accepted step event, other than a rejection that loops back, lowers the total. */
  lemma StepEventLightens(flow: Flow, rank: map<StepId, nat>, top: nat, r: Run, event: Event, e: Effect, j: nat)
    requires Layered(flow, rank, top) && UniqueIds(flow) && NoVerdictYet(r.state.steps)
    requires HumanWaits(flow, r.state.steps)
    requires StepEvent(event) && Enabled(r.state, event) && Transition(flow, r.state, event) == Ok(e)
    requires j <= |e.activations| && (e.activations != [] ==> j > 0)
    requires !LoopsBack(flow, event)
    ensures Total(flow, rank, top, After(r, e, j).state.steps) < Total(flow, rank, top, r.state.steps)
  {
    hide Layered, UniqueIds, Total, ActSum, Transition, NoVerdictYet, Enabled, CancelIds, MarkedSteps, Overlay,
         NextAttempts, Reruns, TargetsOf, ActivateTargets, BuildContext;
    EffectShape(flow, r.state, event, e);
    EffectNextAttempts(flow, r.state, event, e);
    EventDefined(flow, r.state, event, e);
    if e.mark.None? {
      var act := e.activations[0];
      assert e.activations[..j] == [act];
      OneOverlay(r.state.steps, act);
      RetryLightens(flow, rank, top, r.state, event, act);
    } else {
      EffectAdds(flow, rank, top, r, event, e, j);
      MarkLightens(flow, rank, top, r.state, event, e);
      if e.mark.value.status.WaitingApproval? {
        NoActivationWeight(flow, rank, top);
        RunningNotWaiting(r.state, event);
      } else {
        NotRerun(flow, r.state, event, e);
        RoutedAdds(flow, rank, top, r.state, event, e);
      }
    }
  }

  lemma OneOverlay(steps: Steps, act: StepActivation)
    ensures Overlay(steps, [act]) == steps[act.stepId := ActivatedRun(act)]
  {
    assert [act][..0] == [];
  }

  lemma NoActivationWeight(flow: Flow, rank: map<StepId, nat>, top: nat)
    requires Layered(flow, rank, top)
    ensures ActSum(flow, rank, top, []) == 0
  {
  }

  lemma RunningNotWaiting(state: RunState, event: Event)
    requires event.StepCompleted? && Enabled(state, event)
    ensures !HasStatus(state, event.stepId, WaitingApproval)
  {
  }

  lemma NotRerun(flow: Flow, state: RunState, event: Event, e: Effect)
    requires StepEvent(event) && !LoopsBack(flow, event)
    requires e.mark.Some? && (e.mark.None? <==> event.StepFailed? && Reruns(flow, state, event))
    ensures !Reruns(flow, state, event)
  {
  }

  /** A rejection that loops back adds at most one full set of retries. */
  lemma LoopBackAdds(flow: Flow, rank: map<StepId, nat>, top: nat, r: Run, event: Event, e: Effect, j: nat)
    requires Layered(flow, rank, top) && UniqueIds(flow) && NoVerdictYet(r.state.steps)
    requires Enabled(r.state, event) && Transition(flow, r.state, event) == Ok(e)
    requires j <= |e.activations| && LoopsBack(flow, event)
    ensures Total(flow, rank, top, After(r, e, j).state.steps) <=
            Total(flow, rank, top, r.state.steps) + 1 + RetriesOf(flow, event.stepId)
  {
    hide Layered, UniqueIds, Total, Transition, NoVerdictYet, Enabled, CancelIds, MarkedSteps, NextAttempts, TargetsOf,
         ActivateTargets, BuildContext, Below, Overlay;
    EffectShape(flow, r.state, event, e);
    EffectNextAttempts(flow, r.state, event, e);
    EventDefined(flow, r.state, event, e);
    EffectAdds(flow, rank, top, r, event, e, j);
    MarkLightens(flow, rank, top, r.state, event, e);
    var act := e.activations[0];
    assert e.activations == [act] && [act][..0] == [];
    assert ActSum(flow, rank, top, e.activations) == Below(flow, rank, top, event.stepId) + 1
        + RetriesOf(flow, event.stepId);
  }

  // ----- whole runs ---------------------------------------------------------------------

  function CountSteps(moves: seq<Move>): nat {
    if moves == [] then 0
    else
      var m := moves[|moves| - 1];
      CountSteps(moves[..|moves| - 1]) + (if m.Did? && StepEvent(m.event) then 1 else 0)
  }

  function CountLoops(flow: Flow, moves: seq<Move>): nat {
    if moves == [] then 0
    else
      var m := moves[|moves| - 1];
      CountLoops(flow, moves[..|moves| - 1]) + (if m.Did? && LoopsBack(flow, m.event) then 1 else 0)
  }

  ghost predicate RetriesUpTo(flow: Flow, most: nat) {
    forall id :: flow.Defined(id) ==> RetriesOf(flow, id) <= most
  }

  /** The weight of a new run: what its entry steps can lead to. */
  ghost function StartWeight(flow: Flow, rank: map<StepId, nat>, top: nat): nat
    requires Layered(flow, rank, top)
  {
    SumFull(flow, rank, top, Dag.EntrySteps(flow), top)
  }

  lemma {:induction false} EmptyTotal(flow: Flow, rank: map<StepId, nat>, top: nat, list: seq<Step>)
    requires Layered(flow, rank, top)
    ensures TotalIn(flow, rank, top, list, map[]) == 0
  {
    hide Layered;
    if list != [] { EmptyTotal(flow, rank, top, list[..|list| - 1]); }
  }

  lemma StartAdds(flow: Flow, rank: map<StepId, nat>, top: nat, r: Run, e: Effect, j: nat)
    requires Layered(flow, rank, top) && UniqueIds(flow) && NoVerdictYet(r.state.steps)
    requires Enabled(r.state, Event.RunStarted) && Transition(flow, r.state, Event.RunStarted) == Ok(e)
    requires j <= |e.activations|
    ensures Total(flow, rank, top, After(r, e, j).state.steps) <= StartWeight(flow, rank, top)
  {
    EffectShape(flow, r.state, Event.RunStarted, e);
    EffectNextAttempts(flow, r.state, Event.RunStarted, e);
    EmptyTotal(flow, rank, top, flow.steps);
    assert e.next.steps == map[];
    hide UniqueIds, ActSum, Transition, NoVerdictYet, NextAttempts, ActivateTargets, BuildContext, Overlay, SumFull;
    EffectAdds(flow, rank, top, r, Event.RunStarted, e, j);
    ActivationsBounded(flow, rank, top, e.next, BuildContext(flow, e.next), Dag.EntrySteps(flow), top);
  }

  lemma StopLightens(flow: Flow, rank: map<StepId, nat>, top: nat, r: Run, event: Event, e: Effect)
    requires Layered(flow, rank, top) && NoVerdictYet(r.state.steps)
    requires event.RunDeadlineExceeded? || event.CancelRequested?
    requires Enabled(r.state, event) && Transition(flow, r.state, event) == Ok(e)
    ensures e.activations == []
    ensures Total(flow, rank, top, After(r, e, 0).state.steps) <= Total(flow, rank, top, r.state.steps)
  {
    hide Layered, Total, ActiveExcluding, CancelActive;
    EffectShape(flow, r.state, event, e);
    NextLighter(flow, rank, top, r.state.steps, e);
  }

  /** One move of the bound: weight plus events so far. */
  lemma MoveBound(flow: Flow, rank: map<StepId, nat>, top: nat, most: nat, r: Run, m: Move)
    requires Layered(flow, rank, top) && UniqueIds(flow) && RetriesUpTo(flow, most)
    requires NoVerdictYet(r.state.steps) && HumanWaits(flow, r.state.steps) && CanMove(flow, r, m)
    ensures var t, t' := Total(flow, rank, top, r.state.steps), Total(flow, rank, top, Moved(flow, r, m).state.steps);
            if m.Did? && m.event.RunStarted? then r.state.steps == map[] && t' <= StartWeight(flow, rank, top)
            else if m.Did? && LoopsBack(flow, m.event) then t' <= t + 1 + most
            else if m.Did? && StepEvent(m.event) then t' < t
            else t' <= t
    ensures m.Did? && StepEvent(m.event) ==> r.state.steps != map[]
    ensures m.Did? && LoopsBack(flow, m.event) ==> StepEvent(m.event)
    ensures r.state.steps != map[] ==> Moved(flow, r, m).state.steps != map[]
  {
    if m.Did? {
      var event, e := m.event, Transition(flow, r.state, m.event).value;
      hide Layered, UniqueIds, Total, Transition, NoVerdictYet, After, RowAfter, StartWeight, RetriesOf, NextIsMarked,
           Ends, Activates;
      AfterRows(flow, r, event, e, m.j);
      KeepsSomeRow(r.state.steps, event, e, m.j, After(r, e, m.j).state.steps);
      if event.RunStarted? {
        StartAdds(flow, rank, top, r, e, m.j);
      } else if event.RunDeadlineExceeded? || event.CancelRequested? {
        StopLightens(flow, rank, top, r, event, e);
      } else if LoopsBack(flow, event) {
        LoopBackAdds(flow, rank, top, r, event, e, m.j);
      } else {
        StepEventLightens(flow, rank, top, r, event, e, m.j);
      }
    }
  }

  lemma KeepsSomeRow(before: Steps, event: Event, e: Effect, j: nat, after: Steps)
    requires j <= |e.activations| && forall id :: RowAfter(before, event, e, j, after, id)
    ensures before != map[] ==> after != map[]
  {
    if before != map[] {
      var id :| id in before;
      assert RowAfter(before, event, e, j, after, id);
    }
  }

  /** Runs end. In a layered flow a run takes at most as many step events as its start weighs,
      plus a fixed allowance for each rejection that sends a step back to itself. */
  lemma {:induction false} RunsEnd(new_: NewRun, rank: map<StepId, nat>, top: nat, most: nat, moves: seq<Move>)
    requires var flow := new_.definition; Layered(flow, rank, top) && UniqueIds(flow) && RetriesUpTo(flow, most)
    requires Playable(new_.definition, NewPlay(new_), moves)
    ensures var flow := new_.definition;
            && Total(flow, rank, top, Play(flow, NewPlay(new_), moves).state.steps) + CountSteps(moves)
               <= StartWeight(flow, rank, top) + CountLoops(flow, moves) * (2 + most)
            && (Play(flow, NewPlay(new_), moves).state.steps == map[] ==> CountSteps(moves) == 0)
    decreases |moves|
  {
    var flow, start := new_.definition, NewPlay(new_);
    hide Layered, UniqueIds, RetriesUpTo, CanMove, Moved, Invariant, Total, StartWeight;
    if moves == [] {
      FreshTotal(flow, rank, top);
    } else {
      var n := |moves| - 1;
      RunsEnd(new_, rank, top, most, moves[..n]);
      PlayInvariant(new_, moves[..n]);
      VerdictsOpen(flow, Play(flow, start, moves[..n]));
      OnlyHumansWait(flow, Play(flow, start, moves[..n]));
      MoveBound(flow, rank, top, most, Play(flow, start, moves[..n]), moves[n]);
      OneMoreLoop(CountLoops(flow, moves[..n]), 2 + most);
    }
  }

  lemma FreshTotal(flow: Flow, rank: map<StepId, nat>, top: nat)
    requires Layered(flow, rank, top)
    ensures Total(flow, rank, top, map[]) == 0
  {
    EmptyTotal(flow, rank, top, flow.steps);
  }

  lemma OnlyHumansWait(flow: Flow, r: Run)
    requires Invariant(flow, r)
    ensures HumanWaits(flow, r.state.steps)
  {
  }

  lemma OneMoreLoop(k: nat, c: nat)
    ensures (k + 1) * c == k * c + c
    ensures 0 <= k * c
  {
  }
}
