/** Which events the engine refuses. Its documents say an illegal status change is refused
    with an error; it never is: what the engine decides about a step event does not depend on
    the status of the step. Legality rests on the callers, such as the approval check. */
module Legality {
  import opened Wrappers
  import opened Ordering
  import opened FlowTypes
  import opened Template
  import opened RunTypes
  import opened Engine
  import opened Ports
  import opened Store
  import opened Core
  import Confluence
  import Rows
  import Dag

  // ----- what is refused ----------------------------------------------------------------

  predicate Unknown(r: Result<Effect, EngineError>) {
    r.Err? ==> r.error.UnknownStep?
  }

  lemma {:induction false} TargetsUnknown(flow: Flow, state: RunState, ctx: TemplateContext, targets: seq<StepId>)
    ensures ActivateTargets(flow, state, ctx, targets).Err? ==>
              ActivateTargets(flow, state, ctx, targets).error.UnknownStep?
  {
    if targets != [] {
      TargetsUnknown(flow, state, ctx, targets[1..]);
    }
  }

  lemma RoutedUnknown(flow: Flow, mark: Mark, cancels: seq<StepId>, next: RunState, targets: seq<StepId>)
    ensures Unknown(Routed(flow, mark, cancels, next, targets))
  {
    TargetsUnknown(flow, next, BuildContext(flow, next), targets);
  }

  /** The engine's only refusal is `UnknownStep`: no event is ever an illegal transition. */
  lemma NeverIllegal(flow: Flow, state: RunState, event: Event)
    ensures Decide(flow, state, event).Err? ==> Decide(flow, state, event).error.UnknownStep?
  {
    hide Routed, ActivateTargets, BuildContext, CommandsOf, Upsert, FailedState, ApprovedState, RejectedState,
         ActiveExcluding, CancelActive;
    match event {
      case RunStarted => TargetsUnknown(flow, state, BuildContext(flow, state), Dag.EntrySteps(flow));
      case StepCompleted(id, output) =>
        if flow.Defined(id) {
          RoutedUnknown(flow, Mark(id, StepStatus.Completed), [], Upsert(state, id, StepStatus.Completed, Some(output)),
                        RouteTargets(flow.StepOf(id).value.onSuccess));
        }
      case StepFailed(id, reason) =>
        if flow.Defined(id) {
          RoutedUnknown(flow, Mark(id, StepStatus.Failed), ActiveExcluding(state, id), FailedState(state, id, reason),
                        RouteTargets(flow.StepOf(id).value.onFailure));
        }
      case StepApproved(id, comment) =>
        if flow.Defined(id) {
          RoutedUnknown(flow, Mark(id, StepStatus.Completed), [], ApprovedState(state, id, comment),
                        RouteTargets(flow.StepOf(id).value.onApprove));
        }
      case StepRejected(id, feedback) =>
        if flow.Defined(id) {
          RoutedUnknown(flow, Mark(id, FailedRejected), [], RejectedState(state, id, feedback),
                        RouteTargets(flow.StepOf(id).value.onReject));
        }
      case _ =>
    }
  }

  function WithStatus(state: RunState, id: StepId, status: StepStatus): RunState
    requires id in state.steps
  {
    state.(steps := state.steps[id := state.steps[id].(status := status)])
  }

  /** What the engine decides about a step event does not depend on the step's status. */
  lemma StatusIgnored(flow: Flow, state: RunState, event: Event, status: StepStatus)
    requires StepEvent(event) && event.stepId in state.steps
    ensures Decide(flow, WithStatus(state, event.stepId, status), event) == Decide(flow, state, event)
  {
    hide Routed, ResolveInput, ResolveRejectInput, BuildContext, ActiveExcluding, FailedState;
    var id := event.stepId;
    var other := WithStatus(state, id, status);
    UpsertForgets(state, id, status);
    if event.StepFailed? {
      FailureForgets(state, id, status, event.reason);
      SameContext(flow, state, id, status);
    }
  }

  /** Writing a status forgets the one before. */
  lemma UpsertForgets(state: RunState, id: StepId, status: StepStatus)
    requires id in state.steps
    ensures forall s, output :: Upsert(WithStatus(state, id, status), id, s, output) == Upsert(state, id, s, output)
  {
    forall s, output ensures Upsert(WithStatus(state, id, status), id, s, output) == Upsert(state, id, s, output) {
      var row := state.steps[id].(status := s, output := if output.Some? then output else state.steps[id].output);
      assert state.steps[id := state.steps[id].(status := status)][id := row] == state.steps[id := row];
    }
  }

  lemma FailureForgets(state: RunState, id: StepId, status: StepStatus, reason: string)
    requires id in state.steps
    ensures FailedState(WithStatus(state, id, status), id, reason) == FailedState(state, id, reason)
    ensures ActiveExcluding(WithStatus(state, id, status), id) == ActiveExcluding(state, id)
  {
    var other := WithStatus(state, id, status);
    UpsertForgets(state, id, status);
    assert (set x | x in other.steps && other.steps[x].status.IsActive() && x != id)
           == (set x | x in state.steps && state.steps[x].status.IsActive() && x != id);
  }

  lemma SameContext(flow: Flow, state: RunState, id: StepId, status: StepStatus)
    requires id in state.steps
    ensures BuildContext(flow, WithStatus(state, id, status)) == BuildContext(flow, state)
  {
    var other := WithStatus(state, id, status);
    assert forall s :: s in flow.steps && s.id in state.steps ==>
        ContextOf(other.steps[s.id]) == ContextOf(state.steps[s.id]);
    assert BuildContext(flow, other).steps == BuildContext(flow, state).steps;
  }

  /** The input a step is run again with. */
  function RerunInput(flow: Flow, state: RunState, event: Event): Result<string, EngineError>
    requires Reruns(flow, state, event)
  {
    var step := flow.StepOf(event.stepId).value;
    match event
    case StepFailed(_, _) => ResolveInput(step, BuildContext(flow, state))
    case StepRejected(_, feedback) => ResolveRejectInput(step, BuildContext(flow, Considered(state, event)), feedback)
  }

  /** Exactly when the engine refuses an event about a step, legal or not: the step is
      unknown, the input it would run again with does not resolve, or the event's route holds a
      target that is no step or whose gate is open and whose input does not resolve. */
  lemma IllegalRefusedExactly(flow: Flow, state: RunState, event: Event)
    requires StepEvent(event)
    ensures Decide(flow, state, event).Err? <==>
              || !flow.Defined(event.stepId)
              || (if Reruns(flow, state, event) then RerunInput(flow, state, event).Err?
                  else exists t :: t in TargetsOf(flow, state, event)
                         && Confluence.Refuses(flow, Considered(state, event),
                                               BuildContext(flow, Considered(state, event)), t))
  {
    hide Confluence.Refuses, ActivateTargets, BuildContext, ResolveInput, ResolveRejectInput, AllTerminal, Phase,
         Unreached, CommandsOf, Upsert, FailedState, ApprovedState, RejectedState, ActiveExcluding;
    if flow.Defined(event.stepId) && !Reruns(flow, state, event) {
      var next := Considered(state, event);
      Confluence.RefusedTargets(flow, next, BuildContext(flow, next), TargetsOf(flow, state, event));
    }
  }

  // ----- the approval check -------------------------------------------------------------

  datatype ApprovalError = StoreFailed(error: StoreError) | NoWaitingStep | AmbiguousStep | NotWaiting(stepId: StepId)

  predicate Waits(rec: RunRecord, id: StepId) {
    id in Latest(rec.steps) && Latest(rec.steps)[id].run.status.WaitingApproval?
  }

  predicate Distinct(ids: seq<StepId>) {
    forall i, j :: 0 <= i < j < |ids| ==> ids[i] != ids[j]
  }

  /** The listed rows, one per step, each under its own id. */
  lemma ListedRows(rec: RunRecord, latest: seq<StepRecord>, ids: seq<StepId>)
    requires ids == SortedIds(Latest(rec.steps).Keys) && latest == InOrder(Latest(rec.steps), ids)
    ensures Distinct(ids) && |latest| == |ids|
    ensures forall i :: 0 <= i < |ids| ==>
              latest[i].run.stepId == ids[i] && (latest[i].run.status.WaitingApproval? <==> Waits(rec, ids[i]))
    ensures forall id :: Waits(rec, id) ==> id in ids
  {
    Rows.LatestPicks(rec.steps);
    hide Latest;
    forall i | 0 <= i < |ids|
      ensures latest[i].run.stepId == ids[i] && (latest[i].run.status.WaitingApproval? <==> Waits(rec, ids[i])) {
      assert ids[i] in ids;
    }
  }

  function WaitingIn(latest: seq<StepRecord>): seq<StepId> {
    if latest == [] then []
    else
      var n := |latest| - 1;
      WaitingIn(latest[..n]) + (if latest[n].run.status == WaitingApproval then [latest[n].run.stepId] else [])
  }

  lemma {:induction false} WaitingInMembers(latest: seq<StepRecord>, ids: seq<StepId>)
    requires |ids| == |latest| && Distinct(ids) && forall i :: 0 <= i < |ids| ==> latest[i].run.stepId == ids[i]
    ensures Distinct(WaitingIn(latest))
    ensures forall id :: id in WaitingIn(latest) <==>
              exists i :: 0 <= i < |ids| && ids[i] == id && latest[i].run.status.WaitingApproval?
  {
    if latest != [] {
      var n := |latest| - 1;
      WaitingInMembers(latest[..n], ids[..n]);
      var before, after := WaitingIn(latest[..n]), WaitingIn(latest);
      assert ids[n] !in before;
      assert forall id :: id in after <==> id in before || (latest[n].run.status.WaitingApproval? && id == ids[n]);
    }
  }

  /** The ids of the latest attempts that wait for approval, in order. */
  method WaitingSteps(rec: RunRecord) returns (waiting: seq<StepId>)
    ensures forall id :: id in waiting <==> Waits(rec, id)
    ensures Distinct(waiting)
  {
    hide *;
    var latest := LatestSteps(rec.steps);
    waiting := [];
    NoneWaiting();
    for i := 0 to |latest|
      invariant waiting == WaitingIn(latest[..i])
    {
      MoreWaiting(latest, i);
      if latest[i].run.status == WaitingApproval {
        waiting := waiting + [latest[i].run.stepId];
      }
    }
    assert latest[..|latest|] == latest;
    ListedRows(rec, latest, SortedIds(Latest(rec.steps).Keys));
    WaitingInMembers(latest, SortedIds(Latest(rec.steps).Keys));
  }

  lemma NoneWaiting()
    ensures WaitingIn([]) == []
  {
  }

  lemma MoreWaiting(latest: seq<StepRecord>, i: nat)
    requires i < |latest|
    ensures WaitingIn(latest[..i + 1]) == WaitingIn(latest[..i])
            + (if latest[i].run.status == WaitingApproval then [latest[i].run.stepId] else [])
  {
    assert latest[..i + 1][..i] == latest[..i];
  }

  /** What the check answers for a stored run. */
  ghost predicate Resolves(rec: RunRecord, explicit: Option<StepId>, r: Result<StepId, ApprovalError>) {
    match explicit
    case Some(id) => r == if Waits(rec, id) then Ok(id) else Err(NotWaiting(id))
    case None =>
      match r
      case Ok(id) => Waits(rec, id) && forall other :: Waits(rec, other) ==> other == id
      case Err(NoWaitingStep) => forall id :: !Waits(rec, id)
      case Err(AmbiguousStep) => exists a, b :: a != b && Waits(rec, a) && Waits(rec, b)
      case Err(_) => false
  }

  /** `resolve_step_id`: the step an approval or rejection is about. */
  method ResolveStepId(store: InMemoryStateStore, runId: RunId, explicit: Option<StepId>)
      returns (r: Result<StepId, ApprovalError>)
    ensures if runId in store.runs then Resolves(store.runs[runId], explicit, r) else r == Err(StoreFailed(NotFound))
  {
    hide Waits;
    var loaded := store.LoadRun(runId);
    if loaded.Err? { return Err(StoreFailed(loaded.error)); }
    var waiting := WaitingSteps(loaded.value);
    if explicit.Some? {
      return if explicit.value in waiting then Ok(explicit.value) else Err(NotWaiting(explicit.value));
    }
    if waiting == [] { return Err(NoWaitingStep); }
    assert Waits(loaded.value, waiting[0]) by { assert waiting[0] in waiting; }
    if |waiting| > 1 {
      assert Waits(loaded.value, waiting[1]) by { assert waiting[1] in waiting; }
      return Err(AmbiguousStep);
    }
    r := Ok(waiting[0]);
  }

  /** A resolved approval or rejection is legal for the record it was resolved on, and stays
      legal for exactly as long as the step's latest attempt waits: the check is made before
      the run's lock is taken. */
  lemma ResolvedIsLegal(rec: RunRecord, later: RunRecord, id: StepId, comment: Option<string>, feedback: string)
    requires Waits(rec, id)
    ensures Enabled(RunStateOf(rec), Event.StepApproved(id, comment))
    ensures Enabled(RunStateOf(rec), Event.StepRejected(id, feedback))
    ensures Enabled(RunStateOf(later), Event.StepApproved(id, comment)) <==> Waits(later, id)
    ensures Enabled(RunStateOf(later), Event.StepRejected(id, feedback)) <==> Waits(later, id)
  {
  }

  /** Two approvals of one step that were both resolved before either was submitted: the
      second is no longer legal, yet the engine accepts it; and a step the first one started is
      started once more beside the running attempt exactly when it needs none of the steps the
      first one started. */
  lemma ApprovedTwice(flow: Flow, r: Run, id: StepId, first: Option<string>, second: Option<string>, e: Effect,
                      again: Effect, t: StepId)
    requires HasStatus(r.state, id, WaitingApproval)
    requires Transition(flow, r.state, Event.StepApproved(id, first)) == Ok(e) && e.finish.None?
    requires id !in ActIds(e.activations) && t in ActIds(e.activations)
    requires Transition(flow, After(r, e, |e.activations|).state, Event.StepApproved(id, second)) == Ok(again)
    ensures var r1 := After(r, e, |e.activations|); var r2 := After(r1, again, |again.activations|);
            && !Enabled(r1.state, Event.StepApproved(id, second))
            && flow.Defined(t) && t in r1.state.steps && r1.state.steps[t].status.Running?
            && t in r2.state.steps
            && r2.state.steps[t].attempt == r1.state.steps[t].attempt
                + (if t in ActIds(again.activations) then 1 else 0)
            && (t in ActIds(again.activations) <==>
                forall n :: n in flow.StepOf(t).value.needs ==> n !in ActIds(e.activations))
  {
    hide *;
    var r1 := After(r, e, |e.activations|);
    var next1, next2 := ApprovedState(r.state, id, first), ApprovedState(r1.state, id, second);
    ApprovalFollows(flow, r.state, id, first, e);
    var targets := RouteTargets(flow.StepOf(id).value.onApprove);
    Overlaid(flow, next1, targets, e.activations);
    WholeAfter(r, e);
    ApprovedRows(r.state, id, first);
    NoLongerWaits(r1.state, id, second);
    ApprovalFollows(flow, r1.state, id, second, again);
    Overlaid(flow, next2, targets, again.activations);
    WholeAfter(r1, again);
    ApprovedRows(r1.state, id, second);
    GateOpenAgain(flow, next1, next2, ActIds(e.activations), t);
  }

  /** The rows once every activation of an effect is in. */
  lemma WholeAfter(r: Run, e: Effect)
    ensures After(r, e, |e.activations|).state.steps == Overlay(e.next.steps, e.activations)
  {
    assert e.activations[..|e.activations|] == e.activations;
    hide Overlay;
  }

  lemma ApprovedRows(state: RunState, id: StepId, comment: Option<string>)
    ensures var next := ApprovedState(state, id, comment).steps;
            && id in next && next[id].status.Completed?
            && (forall x :: x != id ==> (x in next <==> x in state.steps) && (x in next ==> next[x] == state.steps[x]))
  {
  }

  lemma NoLongerWaits(state: RunState, id: StepId, comment: Option<string>)
    requires id in state.steps && state.steps[id].status.Completed?
    ensures !Enabled(state, Event.StepApproved(id, comment))
  {
  }

  lemma ApprovalFollows(flow: Flow, state: RunState, id: StepId, comment: Option<string>, e: Effect)
    requires Transition(flow, state, Event.StepApproved(id, comment)) == Ok(e)
    ensures flow.StepOf(id).Some? && e.next == ApprovedState(state, id, comment)
    ensures ActivateTargets(flow, e.next, BuildContext(flow, e.next), RouteTargets(flow.StepOf(id).value.onApprove))
            == Ok(e.activations)
  {
    hide BuildContext, ActivateTargets, ApprovedState, AllTerminal, Phase, Unreached;
  }

  lemma Overlaid(flow: Flow, next: RunState, targets: seq<StepId>, acts: seq<StepActivation>)
    requires ActivateTargets(flow, next, BuildContext(flow, next), targets) == Ok(acts)
    ensures Overlay(next.steps, acts).Keys == next.steps.Keys + ActIds(acts)
    ensures forall x :: x in next.steps && x !in ActIds(acts) ==> Overlay(next.steps, acts)[x] == next.steps[x]
    ensures forall x :: x in ActIds(acts) ==>
              Overlay(next.steps, acts)[x].status.Running?
              && Overlay(next.steps, acts)[x].attempt == (if x in next.steps then next.steps[x].attempt + 1 else 1)
    ensures forall x :: x in ActIds(acts) <==>
              x in targets && x != DONE && flow.Defined(x) && NeedsSatisfied(flow, next, flow.StepOf(x).value)
  {
    hide BuildContext, ActivateTargets, NeedsSatisfied, Overlay, NextAttempts, ActIds;
    TargetsNextAttempts(flow, next, BuildContext(flow, next), targets);
    OverlayAt(flow, next.steps, acts);
    Confluence.ActivatedTargets(flow, next, BuildContext(flow, next), targets);
  }

  /** A gate that was open before some steps were started is still open exactly when none of
      them is among its needs. */
  lemma GateOpenAgain(flow: Flow, before: RunState, after: RunState, started: set<StepId>, t: StepId)
    requires flow.Defined(t) && NeedsSatisfied(flow, before, flow.StepOf(t).value)
    requires forall x :: x in started ==> x in after.steps && !after.steps[x].status.Completed?
    requires forall x :: x in before.steps && x !in started ==>
               x in after.steps && after.steps[x].status == before.steps[x].status
    ensures NeedsSatisfied(flow, after, flow.StepOf(t).value) <==>
              forall n :: n in flow.StepOf(t).value.needs ==> n !in started
  {
  }
}
