/** A run without its table: the latest attempts, the stored phase and the trail of logged
    events. `After` is what one event does to it, from the engine's effect alone. */
module Core {
  import opened Wrappers
  import opened FlowTypes
  import opened RunTypes
  import opened Template
  import opened Engine
  import opened Ports
  import opened Scheduler
  import Dag

  type Steps = map<StepId, StepRun>

  datatype Run = Run(state: RunState, phase: RunPhase, trail: seq<RunEventRecord>)

  // ----- one event ----------------------------------------------------------------------

  /** One Running row per activation, over the rows the engine had in mind. */
  function Overlay(steps: Steps, acts: seq<StepActivation>): Steps {
    if acts == [] then steps
    else
      var n := |acts| - 1;
      Overlay(steps, acts[..n])[acts[n].stepId := ActivatedRun(acts[n])]
  }

  function MarkNotes(mark: Option<Mark>): seq<RunEventRecord> {
    match mark
    case None => []
    case Some(m) =>
      match m.status
      case WaitingApproval => [RunEventRecord(StepWaitingApproval, Some(m.stepId))]
      case Completed => [RunEventRecord(RunEventType.StepCompleted, Some(m.stepId))]
      case Failed => [RunEventRecord(RunEventType.StepFailed, Some(m.stepId))]
      case FailedRejected => [RunEventRecord(RunEventType.StepFailed, Some(m.stepId))]
      case _ => []
  }

  function ActNotes(acts: seq<StepActivation>): seq<RunEventRecord> {
    if acts == [] then []
    else
      var n := |acts| - 1;
      ActNotes(acts[..n]) + [RunEventRecord(StepActivated, Some(acts[n].stepId))]
  }

  function EndNotes(finish: Option<RunPhase>): seq<RunEventRecord> {
    match finish
    case None => []
    case Some(p) => if p == RunPhase.Running then [] else [RunEventRecord(EndType(p), None)]
  }

  /** The run once an effect has been persisted up to its `j`-th activation. */
  function After(r: Run, e: Effect, j: nat): Run
    requires j <= |e.activations|
  {
    Run(r.state.(steps := Overlay(e.next.steps, e.activations[..j]),
                 cancelled := r.state.cancelled || e.finish == Some(RunPhase.Cancelled)),
        if e.finish.Some? then e.finish.value else r.phase,
        r.trail + MarkNotes(e.mark) + ActNotes(e.activations[..j]) + EndNotes(e.finish))
  }

  // ----- which events can happen --------------------------------------------------------

  predicate HasStatus(state: RunState, id: StepId, status: StepStatus) {
    id in state.steps && state.steps[id].status == status
  }

  /** When an event can reach the engine: the engine itself never checks. A run is started
      before it has rows; a job reports on a step that is running; an approval is only
      passed on for a step that waits for one; a run may be stopped at any time unless a step
      with an empty id, which stopping passes over, is active. */
  predicate Enabled(state: RunState, event: Event) {
    match event
    case RunStarted => state.steps == map[]
    case StepCompleted(id, _) => HasStatus(state, id, StepStatus.Running)
    case StepFailed(id, _) => HasStatus(state, id, StepStatus.Running)
    case StepApproved(id, _) => HasStatus(state, id, WaitingApproval)
    case StepRejected(id, _) => HasStatus(state, id, WaitingApproval)
    case RunDeadlineExceeded => !PassedOver(state)
    case CancelRequested => !PassedOver(state)
  }

  predicate StepEvent(event: Event) {
    event.StepCompleted? || event.StepFailed? || event.StepApproved? || event.StepRejected?
  }

  /** No verdict is recorded on a step that is still running or waiting. */
  ghost predicate NoVerdictYet(steps: Steps) {
    forall id :: id in steps && steps[id].status.IsActive() ==>
      steps[id].feedback.None? && steps[id].approvalComment.None? && steps[id].approvalStatus.None?
  }

  // ----- the state the engine had in mind -----------------------------------------------

  /** A row once its job has reported and a person has yet to decide. */
  function WaitingRun(run: StepRun, output: Value): StepRun {
    run.(status := WaitingApproval, output := Some(output))
  }

  /** What an event leaves on the row of its own step. */
  function MarkedRun(event: Event, status: StepStatus, run: StepRun): StepRun {
    match event
    case StepCompleted(_, output) => run.(status := status, output := Some(output))
    case StepFailed(_, reason) => run.(status := status, failureReason := Some(reason))
    case StepApproved(_, comment) =>
      run.(status := status, approvalStatus := Some(Approved), approvalComment := comment, feedback := None)
    case StepRejected(_, feedback) =>
      run.(status := status, approvalStatus := Some(Rejected), approvalComment := None, feedback := Some(feedback))
    case _ => run.(status := status)
  }

  predicate ConcernsStep(event: Event, id: StepId) {
    match event
    case StepCompleted(ev, _) => ev == id
    case StepFailed(ev, _) => ev == id
    case StepApproved(ev, _) => ev == id
    case StepRejected(ev, _) => ev == id
    case _ => false
  }

  function MarkedSteps(steps: Steps, event: Event, mark: Option<Mark>): Steps {
    if mark.Some? && mark.value.stepId in steps
    then steps[mark.value.stepId := MarkedRun(event, mark.value.status, steps[mark.value.stepId])]
    else steps
  }

  function CancelIds(steps: Steps, ids: seq<StepId>): Steps {
    if ids == [] then steps
    else
      var n := |ids| - 1;
      var before := CancelIds(steps, ids[..n]);
      if ids[n] in before then before[ids[n] := before[ids[n]].(status := StepStatus.Cancelled)] else before
  }

  lemma {:induction false} CancelIdsAt(steps: Steps, ids: seq<StepId>)
    ensures CancelIds(steps, ids).Keys == steps.Keys
    ensures forall id :: id in steps ==>
              CancelIds(steps, ids)[id] == if id in ids then steps[id].(status := StepStatus.Cancelled) else steps[id]
  {
    if ids != [] {
      var n := |ids| - 1;
      CancelIdsAt(steps, ids[..n]);
      assert ids == ids[..n] + [ids[n]];
    }
  }

  /** The cancelled steps are exactly the active ones, other than the excluded step. */
  lemma ActiveExactly(state: RunState, excluding: StepId)
    ensures forall id :: id in ActiveExcluding(state, excluding) <==>
              id in state.steps && state.steps[id].status.IsActive() && id != excluding
  {
  }

  /** The statuses an event can put on its step. */
  predicate Settles(status: StepStatus) {
    status.WaitingApproval? || status.Completed? || status.Failed? || status.FailedRejected?
  }

  /** The state the engine reasons about after an event is the old one with the event's mark
      on its step and the cancelled steps cancelled, and nothing else. */
  ghost predicate NextIsMarked(state: RunState, event: Event, e: Effect) {
    && (e.mark.Some? ==>
          && ConcernsStep(event, e.mark.value.stepId)
          && e.mark.value.stepId in state.steps
          && Settles(e.mark.value.status)
          && e.mark.value.stepId !in e.cancels)
    && e.next.steps == CancelIds(MarkedSteps(state.steps, event, e.mark), e.cancels)
    && e.next.steps.Keys == state.steps.Keys
    && e.next == state.(steps := e.next.steps, cancelled := state.cancelled || event.CancelRequested?)
    && (forall id :: id in e.cancels ==> id in state.steps && state.steps[id].status.IsActive())
  }

  /** How an effect ends: nothing is skipped and nothing ends while something activates; an
      end is decided only over steps that are all terminal, or by a deadline or a cancel. */
  ghost predicate Ends(flow: Flow, event: Event, e: Effect) {
    && (e.finish.None? ==> e.skips == [])
    && (e.finish.Some? ==>
        e.activations == [] && e.skips <= Unreached(flow.steps, e.next) && e.finish.value != RunPhase.Running)
    && (e.finish.Some? && !event.RunDeadlineExceeded? && !event.CancelRequested? ==>
          AllTerminal(e.next) && e.finish.value == Phase(e.next))
    && (e.finish.None? && e.activations == [] && !event.RunStarted? ==> !AllTerminal(e.next))
  }

  /** The state the engine resolves the inputs of the next steps in. */
  function Considered(state: RunState, event: Event): RunState {
    match event
    case StepCompleted(id, output) => Upsert(state, id, StepStatus.Completed, Some(output))
    case StepFailed(id, reason) => FailedState(state, id, reason)
    case StepApproved(id, comment) => ApprovedState(state, id, comment)
    case StepRejected(id, feedback) => RejectedState(state, id, feedback)
    case _ => state
  }

  /** The routing targets an event follows. */
  function TargetsOf(flow: Flow, state: RunState, event: Event): seq<StepId> {
    match event
    case RunStarted => Dag.EntrySteps(flow)
    case StepCompleted(id, _) =>
      (match flow.StepOf(id) case None => []
       case Some(step) => if step.humanLoop then [] else RouteTargets(step.onSuccess))
    case StepFailed(id, _) =>
      (match flow.StepOf(id) case None => [] case Some(step) => RouteTargets(step.onFailure))
    case StepApproved(id, _) =>
      (match flow.StepOf(id) case None => [] case Some(step) => RouteTargets(step.onApprove))
    case StepRejected(id, _) =>
      (match flow.StepOf(id) case None => [] case Some(step) => RouteTargets(step.onReject))
    case _ => []
  }

  /** Whether an event runs its own step again: a retry, or a rejection that loops back. */
  predicate Reruns(flow: Flow, state: RunState, event: Event) {
    match event
    case StepFailed(id, _) => flow.Defined(id) && Attempt(state, id) <= flow.StepOf(id).value.retries
    case StepRejected(id, _) => flow.Defined(id) && Dag.IsSelfRejectLoop(flow.StepOf(id).value)
    case _ => false
  }

  ghost predicate Activates(flow: Flow, state: RunState, event: Event, e: Effect) {
    if Reruns(flow, state, event)
    then |e.activations| == 1 && ConcernsStep(event, e.activations[0].stepId)
         && e.activations[0].attempt == NextAttempt(state, e.activations[0].stepId)
    else ActivateTargets(flow, e.next, BuildContext(flow, e.next), TargetsOf(flow, state, event)) == Ok(e.activations)
  }

  lemma RoutedShape(flow: Flow, mark: Mark, cancels: seq<StepId>, next: RunState, targets: seq<StepId>)
    requires Routed(flow, mark, cancels, next, targets).Ok?
    ensures var e := Routed(flow, mark, cancels, next, targets).value;
            && e.mark == Some(mark) && e.cancels == cancels && e.next == next
            && ActivateTargets(flow, next, BuildContext(flow, next), targets) == Ok(e.activations)
            && (e.finish.None? ==> e.skips == [] && (e.activations == [] ==> !AllTerminal(next)))
            && (e.finish.Some? ==> e.activations == [] && e.skips == Unreached(flow.steps, next)
                                   && AllTerminal(next) && e.finish == Some(Phase(next))
                                   && Phase(next) != RunPhase.Running)
  {
  }

  lemma CompletedShape(flow: Flow, state: RunState, event: Event, e: Effect)
    requires event.StepCompleted? && Enabled(state, event)
    requires Transition(flow, state, event) == Ok(e)
    ensures NextIsMarked(state, event, e) && Ends(flow, event, e) && Activates(flow, state, event, e)
  {
    hide Routed, AllTerminal, ActivateTargets, BuildContext, Phase, Unreached;
    var id := event.stepId;
    var step := flow.StepOf(id).value;
    CancelIdsAt(MarkedSteps(state.steps, event, e.mark), []);
    if step.humanLoop {
      NoneActivate(flow, e.next);
      StillActive(e.next, id);
    } else {
      RoutedShape(flow, Mark(id, StepStatus.Completed), [], Upsert(state, id, StepStatus.Completed, Some(event.output)),
                  RouteTargets(step.onSuccess));
    }
  }

  lemma NoneActivate(flow: Flow, next: RunState)
    ensures ActivateTargets(flow, next, BuildContext(flow, next), []) == Ok([])
  {
  }

  lemma StillActive(state: RunState, id: StepId)
    requires id in state.steps && state.steps[id].status.IsActive()
    ensures !AllTerminal(state)
  {
  }

  lemma FailedStateSteps(state: RunState, event: Event)
    requires event.StepFailed? && event.stepId in state.steps
    ensures var next := FailedState(state, event.stepId, event.reason);
            && next.steps == CancelIds(MarkedSteps(state.steps, event, Some(Mark(event.stepId, StepStatus.Failed))),
                                       ActiveExcluding(state, event.stepId))
            && next == state.(steps := next.steps)
            && next.steps.Keys == state.steps.Keys
  {
    hide ActiveExcluding;
    ActiveExactly(state, event.stepId);
    CancelIdsAt(MarkedSteps(state.steps, event, Some(Mark(event.stepId, StepStatus.Failed))),
                ActiveExcluding(state, event.stepId));
  }

  lemma FailedShape(flow: Flow, state: RunState, event: Event, e: Effect)
    requires event.StepFailed? && Enabled(state, event)
    requires Transition(flow, state, event) == Ok(e)
    ensures NextIsMarked(state, event, e) && Ends(flow, event, e) && Activates(flow, state, event, e)
  {
    hide Routed, AllTerminal, ActivateTargets, BuildContext, Phase, Unreached, ActiveExcluding, ResolveInput,
         FailedState, MarkedRun;
    var id, reason := event.stepId, event.reason;
    if Attempt(state, id) > flow.StepOf(id).value.retries {
      hide CancelIds, MarkedSteps;
      ActiveExactly(state, id);
      FailedStateSteps(state, event);
      RoutedShape(flow, Mark(id, StepStatus.Failed), ActiveExcluding(state, id), FailedState(state, id, reason),
                  RouteTargets(flow.StepOf(id).value.onFailure));
    }
  }

  lemma ApprovedShape(flow: Flow, state: RunState, event: Event, e: Effect)
    requires event.StepApproved? && Enabled(state, event) && NoVerdictYet(state.steps)
    requires Transition(flow, state, event) == Ok(e)
    ensures NextIsMarked(state, event, e) && Ends(flow, event, e) && Activates(flow, state, event, e)
  {
    hide Routed, AllTerminal, ActivateTargets, BuildContext, Phase, Unreached;
    var id := event.stepId;
    CancelIdsAt(MarkedSteps(state.steps, event, e.mark), []);
    RoutedShape(flow, Mark(id, StepStatus.Completed), [], ApprovedState(state, id, event.comment),
                RouteTargets(flow.StepOf(id).value.onApprove));
  }

  lemma RejectedShape(flow: Flow, state: RunState, event: Event, e: Effect)
    requires event.StepRejected? && Enabled(state, event) && NoVerdictYet(state.steps)
    requires Transition(flow, state, event) == Ok(e)
    ensures NextIsMarked(state, event, e) && Ends(flow, event, e) && Activates(flow, state, event, e)
  {
    hide Routed, AllTerminal, ActivateTargets, BuildContext, Phase, Unreached, ResolveRejectInput;
    var id := event.stepId;
    var step := flow.StepOf(id).value;
    CancelIdsAt(MarkedSteps(state.steps, event, e.mark), []);
    if !Dag.IsSelfRejectLoop(step) {
      RoutedShape(flow, Mark(id, FailedRejected), [], RejectedState(state, id, event.feedback),
                  RouteTargets(step.onReject));
    }
  }

  lemma StoppedShape(flow: Flow, state: RunState, event: Event, e: Effect)
    requires event.RunDeadlineExceeded? || event.CancelRequested? || event.RunStarted?
    requires Enabled(state, event)
    requires Transition(flow, state, event) == Ok(e)
    ensures NextIsMarked(state, event, e) && Ends(flow, event, e) && Activates(flow, state, event, e)
  {
    hide AllTerminal, ActivateTargets, BuildContext, Phase, Unreached, ActiveExcluding;
    CancelIdsAt(state.steps, e.cancels);
    ActiveExactly(state, NOTHING);
    NoneActivate(flow, e.next);
  }

  /** Every event that can happen has an effect of this shape. */
  lemma EffectShape(flow: Flow, state: RunState, event: Event, e: Effect)
    requires Enabled(state, event) && NoVerdictYet(state.steps)
    requires Transition(flow, state, event) == Ok(e)
    ensures NextIsMarked(state, event, e) && Ends(flow, event, e) && Activates(flow, state, event, e)
  {
    hide *;
    match event {
      case StepCompleted(_, _) => CompletedShape(flow, state, event, e);
      case StepFailed(_, _) => FailedShape(flow, state, event, e);
      case StepApproved(_, _) => ApprovedShape(flow, state, event, e);
      case StepRejected(_, _) => RejectedShape(flow, state, event, e);
      case _ => StoppedShape(flow, state, event, e);
    }
  }

  // ----- activations --------------------------------------------------------------------

  /** Every activation of a list is of a defined step, numbered after its latest attempt in
      `steps`. */
  ghost predicate NextAttempts(flow: Flow, steps: Steps, acts: seq<StepActivation>) {
    forall a :: a in acts ==>
      flow.Defined(a.stepId) && a.attempt == (if a.stepId in steps then steps[a.stepId].attempt + 1 else 1)
  }

  lemma {:induction false} TargetsNextAttempts(flow: Flow, state: RunState, ctx: TemplateContext, targets: seq<StepId>)
    requires ActivateTargets(flow, state, ctx, targets).Ok?
    ensures NextAttempts(flow, state.steps, ActivateTargets(flow, state, ctx, targets).value)
  {
    if targets != [] {
      TargetsNextAttempts(flow, state, ctx, targets[1..]);
    }
  }

  lemma EffectNextAttempts(flow: Flow, state: RunState, event: Event, e: Effect)
    requires Enabled(state, event) && NoVerdictYet(state.steps)
    requires Transition(flow, state, event) == Ok(e)
    ensures NextAttempts(flow, e.next.steps, e.activations)
  {
    hide ActivateTargets, BuildContext, Ends, Transition, Enabled;
    EffectShape(flow, state, event, e);
    CancelIdsAt(MarkedSteps(state.steps, event, e.mark), e.cancels);
    if !Reruns(flow, state, event) {
      TargetsNextAttempts(flow, e.next, BuildContext(flow, e.next), TargetsOf(flow, state, event));
    }
  }

  function ActIds(acts: seq<StepActivation>): set<StepId> {
    set a | a in acts :: a.stepId
  }

  lemma ActIdsSnoc(acts: seq<StepActivation>, n: nat)
    requires n < |acts|
    ensures ActIds(acts[..n + 1]) == ActIds(acts[..n]) + {acts[n].stepId}
  {
    assert acts[..n + 1] == acts[..n] + [acts[n]];
  }

  predicate Fresh(run: StepRun) {
    run.status == StepStatus.Running && run.output.None? && run.feedback.None? && run.approvalComment.None?
    && run.approvalStatus.None? && run.failureReason.None?
  }

  /** What an overlay leaves at each step: the rows it was laid over, except one fresh Running
      row per activated step. */
  lemma {:induction false} OverlayAt(flow: Flow, steps: Steps, acts: seq<StepActivation>)
    requires NextAttempts(flow, steps, acts)
    ensures Overlay(steps, acts).Keys == steps.Keys + ActIds(acts)
    ensures forall id :: id in steps && id !in ActIds(acts) ==> Overlay(steps, acts)[id] == steps[id]
    ensures forall id :: id in ActIds(acts) ==>
              && Fresh(Overlay(steps, acts)[id])
              && Overlay(steps, acts)[id].stepId == id
              && Overlay(steps, acts)[id].attempt == (if id in steps then steps[id].attempt + 1 else 1)
  {
    hide Overlay, ActIds, Fresh, NextAttempts;
    forall id
      ensures id in Overlay(steps, acts) <==> id in steps || id in ActIds(acts)
      ensures id in steps && id !in ActIds(acts) ==> Overlay(steps, acts)[id] == steps[id]
      ensures id in ActIds(acts) ==>
                && Fresh(Overlay(steps, acts)[id])
                && Overlay(steps, acts)[id].stepId == id
                && Overlay(steps, acts)[id].attempt == (if id in steps then steps[id].attempt + 1 else 1)
    {
      OverlayRow(flow, steps, acts, id);
    }
  }

  lemma {:induction false} OverlayRow(flow: Flow, steps: Steps, acts: seq<StepActivation>, id: StepId)
    requires NextAttempts(flow, steps, acts)
    ensures id in Overlay(steps, acts) <==> id in steps || id in ActIds(acts)
    ensures id in steps && id !in ActIds(acts) ==> Overlay(steps, acts)[id] == steps[id]
    ensures id in ActIds(acts) ==>
              && Fresh(Overlay(steps, acts)[id])
              && Overlay(steps, acts)[id].stepId == id
              && Overlay(steps, acts)[id].attempt == (if id in steps then steps[id].attempt + 1 else 1)
  {
    if acts != [] {
      hide NextAttempts, ActIds;
      var n := |acts| - 1;
      assert acts[..n + 1] == acts;
      NextAttemptsPart(flow, steps, acts, n);
      ActIdsSnoc(acts, n);
      OverlayRow(flow, steps, acts[..n], id);
    } else {
      assert forall x :: x !in ActIds(acts);
    }
  }

  lemma NextAttemptsPart(flow: Flow, steps: Steps, acts: seq<StepActivation>, n: nat)
    requires NextAttempts(flow, steps, acts) && n < |acts|
    ensures NextAttempts(flow, steps, acts[..n])
    ensures acts[n].attempt == (if acts[n].stepId in steps then steps[acts[n].stepId].attempt + 1 else 1)
  {
    assert acts[n] in acts;
  }
}
