/** Outputs. A row holds one exactly from the moment its job has reported, so what a template
    finds of another step depends on how that step left its last attempt. The validator counts
    the steps before a step as completed: what holds is that they have completed, unless the
    only route to a step is one taken on failure or rejection. */
module Outputs {
  import opened Wrappers
  import opened FlowTypes
  import opened Closure
  import opened Dag
  import opened Validate
  import opened RunTypes
  import opened Engine
  import opened Ports
  import opened Store
  import opened Core
  import opened Machine
  import opened Invariants
  import opened Soundness

  // ----- which rows hold an output ------------------------------------------------------

  /** An attempt that runs or failed has no output; one that waits, completed or was rejected
      has one. */
  predicate OutputFits(row: StepRun) {
    && (row.status.Running? || row.status.Failed? ==> row.output.None?)
    && (row.status.WaitingApproval? || row.status.Completed? || row.status.FailedRejected? ==> row.output.Some?)
  }

  ghost predicate OutputsFit(steps: Steps) {
    forall id :: id in steps ==> OutputFits(steps[id])
  }

  /** The status an event leaves on its step. */
  predicate MarkFits(state: RunState, event: Event, mark: Mark) {
    match event
    case StepCompleted(id, _) => mark.status.WaitingApproval? || mark.status.Completed?
    case StepFailed(id, _) => mark.status.Failed? && HasStatus(state, id, StepStatus.Running)
    case StepApproved(id, _) => mark.status.Completed? && HasStatus(state, id, WaitingApproval)
    case StepRejected(id, _) => mark.status.FailedRejected? && HasStatus(state, id, WaitingApproval)
    case _ => false
  }

  lemma MarksFit(flow: Flow, state: RunState, event: Event, e: Effect)
    requires Enabled(state, event) && Transition(flow, state, event) == Ok(e)
    ensures e.mark.Some? ==> MarkFits(state, event, e.mark.value)
  {
    hide ActivateTargets, BuildContext, AllTerminal, Phase, Unreached, ActiveExcluding, Upsert, FailedState,
         ApprovedState, RejectedState, ResolveInput, ResolveRejectInput;
  }

  lemma FitAfter(before: Steps, state: RunState, event: Event, e: Effect, j: nat, after: Steps, id: StepId)
    requires state.steps == before && OutputsFit(before) && id in after
    requires j <= |e.activations| && RowAfter(before, event, e, j, after, id)
    requires e.mark.Some? ==> MarkFits(state, event, e.mark.value) && ConcernsStep(event, e.mark.value.stepId)
    ensures OutputFits(after[id])
  {
  }

  lemma MoveKeepsFit(flow: Flow, r: Run, m: Move)
    requires OutputsFit(r.state.steps) && NoVerdictYet(r.state.steps) && CanMove(flow, r, m)
    ensures OutputsFit(Moved(flow, r, m).state.steps)
  {
    if m.Did? {
      var e := Transition(flow, r.state, m.event).value;
      var after := After(r, e, m.j).state.steps;
      AfterRows(flow, r, m.event, e, m.j);
      MarksFit(flow, r.state, m.event, e);
      hide Transition, Enabled, NoVerdictYet, After, Ends, Activates, CancelIds, MarkedSteps, OutputFits, RowAfter,
           MarkFits;
      forall id | id in after ensures OutputFits(after[id]) {
        FitAfter(r.state.steps, r.state, m.event, e, m.j, after, id);
      }
    }
  }

  /** In every reachable state the outputs fit the statuses. */
  lemma {:induction false} PlayFits(new_: NewRun, moves: seq<Move>)
    requires Playable(new_.definition, NewPlay(new_), moves)
    ensures OutputsFit(Play(new_.definition, NewPlay(new_), moves).state.steps)
    decreases |moves|
  {
    if moves != [] {
      hide CanMove, Moved, Invariant, OutputFits;
      var n := |moves| - 1;
      PlayFits(new_, moves[..n]);
      PlayInvariant(new_, moves[..n]);
      VerdictsOpen(new_.definition, Play(new_.definition, NewPlay(new_), moves[..n]));
      MoveKeepsFit(new_.definition, Play(new_.definition, NewPlay(new_), moves[..n]), moves[n]);
    }
  }

  // ----- what the first activation of a step finds --------------------------------------

  predicate HasOutput(steps: Steps, id: StepId) {
    id in steps && steps[id].output.Some?
  }

  /** A step without a row that an event routes to: its source is among the routing sources. */
  lemma FirstSource(flow: Flow, state: RunState, event: Event, t: StepId)
    requires Enabled(state, event) && !event.RunStarted? && t in TargetsOf(flow, state, event) && t != DONE
    requires t !in state.steps
    ensures event.stepId in state.steps && flow.Defined(event.stepId) && event.stepId in Sources(flow, t)
  {
    hide Sources, AllRoutes, EntrySteps;
    FollowedRoutes(flow, state, event, t);
    SourcesAreEdges(flow, t);
    assert Edge(flow, event.stepId, t);
  }

  /** How the direct predecessors of a routed step relate to the step that routed: they are its
      needs, the routing step among them if it is the only source, or just the routing step. */
  lemma DirectIsGate(flow: Flow, s: StepId, t: StepId)
    requires WellJoined(flow) && flow.Defined(t) && s in Sources(flow, t)
    ensures flow.StepOf(t).value.needs == [] ==> Direct(flow, t) == {s}
    ensures flow.StepOf(t).value.needs != [] ==> forall p :: p in Direct(flow, t) ==> p in flow.StepOf(t).value.needs
  {
    var step := flow.StepOf(t).value;
    hide Sources;
    assert JoinDeclared(flow, step) && NeedsAreSources(flow, step);
    var sources := Sources(flow, t);
    if |sources| == 1 {
      assert sources[0] == s;
      if step.needs != [] { assert step.needs[0] in step.needs && step.needs[0] in sources; }
    }
  }

  /** The step of an event that has an effect: its output is there unless it failed. */
  lemma SettledOutput(state: RunState, event: Event, e: Effect)
    requires Enabled(state, event) && StepEvent(event) && OutputsFit(state.steps)
    requires NextIsMarked(state, event, e) && e.mark.Some? && MarkFits(state, event, e.mark.value)
    ensures HasOutput(e.next.steps, event.stepId) <==> !event.StepFailed?
    ensures event.stepId in e.next.steps
            && (event.StepFailed? || event.StepRejected? ==> !e.next.steps[event.stepId].status.Completed?)
  {
    hide CancelIds;
    CancelIdsAt(MarkedSteps(state.steps, event, e.mark), e.cancels);
  }

  /** A success that routes anywhere leaves its step completed. */
  lemma SuccessCompletes(flow: Flow, state: RunState, event: Event, e: Effect)
    requires event.StepCompleted? || event.StepApproved?
    requires Transition(flow, state, event) == Ok(e) && TargetsOf(flow, state, event) != []
    ensures e.mark == Some(Mark(event.stepId, StepStatus.Completed))
  {
    hide ActivateTargets, BuildContext, AllTerminal, Phase, Unreached, Upsert, ApprovedState;
  }

  lemma MarkedNext(state: RunState, event: Event, e: Effect)
    requires Enabled(state, event) && StepEvent(event) && NextIsMarked(state, event, e) && e.mark.Some?
    ensures e.mark.value.stepId == event.stepId && event.stepId in e.next.steps
    ensures e.next.steps[event.stepId].status == e.mark.value.status
    ensures forall id :: id in e.next.steps && id != event.stepId && e.next.steps[id].status.Completed? ==>
              id in state.steps && e.next.steps[id] == state.steps[id]
  {
    hide CancelIds;
    CancelIdsAt(MarkedSteps(state.steps, event, e.mark), e.cancels);
  }

  /** A completed step of the next state holds an output. */
  lemma CompletedOutputs(state: RunState, event: Event, e: Effect, id: StepId)
    requires Enabled(state, event) && OutputsFit(state.steps) && NextIsMarked(state, event, e)
    requires e.mark.Some? ==> MarkFits(state, event, e.mark.value)
    requires id in e.next.steps && e.next.steps[id].status.Completed?
    ensures HasOutput(e.next.steps, id)
  {
    hide CancelIds;
    CancelIdsAt(MarkedSteps(state.steps, event, e.mark), e.cancels);
  }

  lemma Marked(flow: Flow, state: RunState, event: Event, e: Effect)
    requires StepEvent(event) && Transition(flow, state, event) == Ok(e) && !Reruns(flow, state, event)
    ensures e.mark.Some?
  {
    hide ActivateTargets, BuildContext, AllTerminal, Phase, Unreached, ActiveExcluding, Upsert, FailedState,
         ApprovedState, RejectedState, ResolveInput, ResolveRejectInput;
  }

  predicate HasCompleted(steps: Steps, id: StepId) {
    id in steps && steps[id].status.Completed?
  }

  /** The first time a step of an accepted flow that starts clean is activated, all steps
      directly before it are completed, except in one case: a failure or rejection leads to the
      step, which declares no needs. Their outputs are there for its templates, except when it
      is a failure. */
  lemma FirstOutputsExactly(new_: NewRun, moves: seq<Move>, event: Event, e: Effect, t: StepId, p: StepId)
    requires Accepted(new_.definition) && StartsClean(new_.definition)
    requires Playable(new_.definition, NewPlay(new_), moves)
    requires var state := Play(new_.definition, NewPlay(new_), moves).state;
             && Enabled(state, event) && Transition(new_.definition, state, event) == Ok(e)
             && t in ActIds(e.activations) && t !in state.steps
    requires p in Direct(new_.definition, t) && p != t
    ensures new_.definition.Defined(t)
    ensures HasOutput(e.next.steps, p) <==> !(event.StepFailed? && new_.definition.StepOf(t).value.needs == [])
    ensures HasCompleted(e.next.steps, p) <==>
              !((event.StepFailed? || event.StepRejected?) && new_.definition.StepOf(t).value.needs == [])
  {
    hide *;
    var flow, state := new_.definition, Play(new_.definition, NewPlay(new_), moves).state;
    AcceptedJoins(flow);
    PlayInvariant(new_, moves);
    VerdictsOpen(flow, Play(flow, NewPlay(new_), moves));
    PlayFits(new_, moves);
    EffectShape(flow, state, event, e);
    assert e.activations[..|e.activations|] == e.activations;
    NewActivation(flow, state, event, e, |e.activations|, t);
    MarksFit(flow, state, event, e);
    RoutedByStep(flow, state, event, e, t, p);
    FirstSource(flow, state, event, t);
    if Reruns(flow, state, event) { RerunHasRow(flow, state, event, e, |e.activations|, t); }
    Marked(flow, state, event, e);
    DirectIsGate(flow, event.stepId, t);
    SettledOutput(state, event, e);
    MarkedNext(state, event, e);
    if event.StepCompleted? || event.StepApproved? { SuccessCompletes(flow, state, event, e); }
    DoneHere(e.next.steps, p);
    if flow.StepOf(t).value.needs != [] {
      NeedDone(flow, e.next, flow.StepOf(t).value, p);
      CompletedOutputs(state, event, e, p);
    }
  }

  lemma DoneHere(steps: Steps, id: StepId)
    ensures HasCompleted(steps, id) <==> id in steps && steps[id].status.Completed?
  {
  }

  lemma NeedDone(flow: Flow, next: RunState, s: Step, n: StepId)
    requires NeedsSatisfied(flow, next, s) && n in s.needs
    ensures flow.Defined(n) && n in next.steps && next.steps[n].status.Completed?
  {
  }

  /** A step with a predecessor other than itself is not started by the start of the run. */
  lemma RoutedByStep(flow: Flow, state: RunState, event: Event, e: Effect, t: StepId, p: StepId)
    requires StartsClean(flow) && Enabled(state, event) && p in Direct(flow, t) && p != t
    requires t in TargetsOf(flow, state, event) && t != DONE && flow.Defined(t)
    requires NeedsSatisfied(flow, e.next, flow.StepOf(t).value)
    requires NextIsMarked(state, event, e)
    ensures StepEvent(event) && !event.RunStarted? && flow.StepOf(t).Some?
    ensures event.StepCompleted? || event.StepFailed? || event.StepApproved? || event.StepRejected?
  {
    hide Direct, EntrySteps, CancelIds, MarkedSteps, NeedsSatisfied;
    if event.RunStarted? { OpenAtStart(flow, e.next, t); }
  }

  // ----- what has completed by the time a step has a row --------------------------------

  /** The log says that the step has completed, on some attempt. */
  predicate Finished(trail: seq<RunEventRecord>, id: StepId) {
    RunEventRecord(RunEventType.StepCompleted, Some(id)) in trail
  }

  /** A route that is followed on failure or rejection. */
  predicate UnhappyRoute(flow: Flow, p: StepId, t: StepId) {
    flow.Defined(p) && (t in RouteTargets(flow.StepOf(p).value.onFailure)
                        || t in RouteTargets(flow.StepOf(p).value.onReject))
  }

  /** A step that declares no needs is not reached by the failure or rejection of the step
      before it. */
  ghost predicate SuccessOnly(flow: Flow) {
    forall t, p {:trigger p in Direct(flow, t)} ::
      flow.Defined(t) && flow.StepOf(t).value.needs == [] && p in Direct(flow, t) && p != t ==>
          !UnhappyRoute(flow, p, t)
  }

  ghost predicate PredecessorsFinished(flow: Flow, r: Run) {
    forall id, p {:trigger id in r.state.steps, p in Direct(flow, id)} ::
      id in r.state.steps && p in Direct(flow, id) && p != id ==> Finished(r.trail, p)
  }

  ghost predicate FinishedHaveRows(r: Run) {
    forall id :: Finished(r.trail, id) ==> id in r.state.steps
  }

  lemma {:induction false} ActNotesFinish(acts: seq<StepActivation>, id: StepId)
    ensures !Finished(ActNotes(acts), id)
  {
    if acts != [] { ActNotesFinish(acts[..|acts| - 1], id); }
  }

  lemma OtherNotesFinish(mark: Option<Mark>, finish: Option<RunPhase>, id: StepId)
    ensures Finished(MarkNotes(mark), id) <==> mark == Some(Mark(id, StepStatus.Completed))
    ensures !Finished(EndNotes(finish), id)
  {
  }

  /** An event adds a completion to the log exactly when it leaves its step completed. */
  lemma AfterFinished(r: Run, e: Effect, j: nat, id: StepId)
    requires j <= |e.activations|
    ensures Finished(After(r, e, j).trail, id) <==>
              Finished(r.trail, id) || e.mark == Some(Mark(id, StepStatus.Completed))
  {
    ActNotesFinish(e.activations[..j], id);
    OtherNotesFinish(e.mark, e.finish, id);
    hide MarkNotes, ActNotes, EndNotes, Overlay;
  }

  lemma {:induction false} SaidFinished(trail: seq<RunEventRecord>, id: StepId)
    requires LastSaid(trail, id) == Some(RunEventType.StepCompleted)
    ensures Finished(trail, id)
  {
    var n := |trail| - 1;
    if !(trail[n].stepId == Some(id) && StatusType(trail[n].eventType)) { SaidFinished(trail[..n], id); }
  }

  /** A completed latest attempt is in the log. */
  lemma CompletedIsFinished(flow: Flow, r: Run, id: StepId)
    requires Invariant(flow, r) && id in r.state.steps && r.state.steps[id].status.Completed?
    ensures Finished(r.trail, id)
  {
    hide NoVerdictYet, RowsSound, FailuresSpent, PhaseTracks, EndsOnce, LastSaid, Finished;
    SaidFinished(r.trail, id);
  }

  lemma UnhappyFollows(flow: Flow, state: RunState, event: Event, t: StepId)
    requires (event.StepFailed? || event.StepRejected?) && t in TargetsOf(flow, state, event)
    ensures UnhappyRoute(flow, event.stepId, t)
  {
  }

  /** When a step gets its first row, every step directly before it has completed. */
  lemma FirstFinished(flow: Flow, r: Run, event: Event, e: Effect, j: nat, t: StepId, p: StepId)
    requires WellJoined(flow) && StartsClean(flow) && SuccessOnly(flow) && Invariant(flow, r)
    requires Enabled(r.state, event) && Transition(flow, r.state, event) == Ok(e) && j <= |e.activations|
    requires t in ActIds(e.activations[..j]) && t !in r.state.steps && p in Direct(flow, t) && p != t
    ensures Finished(r.trail, p) || e.mark == Some(Mark(p, StepStatus.Completed))
  {
    hide *;
    var state := r.state;
    VerdictsOpen(flow, r);
    EffectShape(flow, state, event, e);
    NewActivation(flow, state, event, e, j, t);
    RoutedByStep(flow, state, event, e, t, p);
    FirstSource(flow, state, event, t);
    if Reruns(flow, state, event) { RerunHasRow(flow, state, event, e, j, t); }
    Marked(flow, state, event, e);
    MarkedNext(state, event, e);
    DirectIsGate(flow, event.stepId, t);
    if flow.StepOf(t).value.needs == [] {
      if event.StepFailed? || event.StepRejected? { UnhappyFollows(flow, state, event, t); }
      ReachedBySuccess(flow, t, p);
      if event.StepCompleted? || event.StepApproved? { SuccessCompletes(flow, state, event, e); }
    } else {
      NeedDone(flow, e.next, flow.StepOf(t).value, p);
      CompletedMark(e.mark.value, p);
      if p != event.stepId { CompletedIsFinished(flow, r, p); }
    }
  }

  lemma CompletedMark(m: Mark, p: StepId)
    requires m.stepId == p ==> m.status.Completed?
    ensures m.stepId == p ==> m == Mark(p, StepStatus.Completed)
  {
  }

  lemma ReachedBySuccess(flow: Flow, t: StepId, p: StepId)
    requires SuccessOnly(flow) && flow.StepOf(t).Some? && flow.StepOf(t).value.needs == [] && p in Direct(flow, t)
    requires p != t
    ensures !UnhappyRoute(flow, p, t)
  {
    hide Direct;
  }

  lemma MoveKeepsFinished(flow: Flow, r: Run, m: Move)
    requires WellJoined(flow) && StartsClean(flow) && SuccessOnly(flow) && Invariant(flow, r) && CanMove(flow, r, m)
    requires PredecessorsFinished(flow, r) && FinishedHaveRows(r)
    ensures PredecessorsFinished(flow, Moved(flow, r, m)) && FinishedHaveRows(Moved(flow, r, m))
  {
    if m.Did? {
      var e := Transition(flow, r.state, m.event).value;
      var after := After(r, e, m.j);
      VerdictsOpen(flow, r);
      hide Transition, Enabled, NoVerdictYet, RowsSound, FailuresSpent, PhaseTracks, LogAgrees, EndsOnce, After,
           RowAfter, Invariant, WellJoined, StartsClean, SuccessOnly, Direct, TargetsOf, CancelIds, MarkedSteps,
           BuildContext, ActivateTargets, Finished;
      AfterRows(flow, r, m.event, e, m.j);
      forall id, p | id in after.state.steps && p in Direct(flow, id) && p != id ensures Finished(after.trail, p) {
        KeysAfter(r.state.steps, m.event, e, m.j, after.state.steps, id);
        AfterFinished(r, e, m.j, p);
        if id !in r.state.steps { FirstFinished(flow, r, m.event, e, m.j, id, p); }
      }
      forall id | Finished(after.trail, id) ensures id in after.state.steps {
        KeysAfter(r.state.steps, m.event, e, m.j, after.state.steps, id);
        AfterFinished(r, e, m.j, id);
      }
    } else {
      LoggedFinishes(flow, r, m);
    }
  }

  lemma LoggedFinishes(flow: Flow, r: Run, m: Move)
    requires m.Logged? && CanMove(flow, r, m)
    ensures Moved(flow, r, m).state == r.state
            && forall id :: Finished(Moved(flow, r, m).trail, id) <==> Finished(r.trail, id)
  {
  }

  lemma {:induction false} PlayFinished(new_: NewRun, moves: seq<Move>)
    requires WellJoined(new_.definition) && StartsClean(new_.definition) && SuccessOnly(new_.definition)
    requires Playable(new_.definition, NewPlay(new_), moves)
    ensures PredecessorsFinished(new_.definition, Play(new_.definition, NewPlay(new_), moves))
    ensures FinishedHaveRows(Play(new_.definition, NewPlay(new_), moves))
    decreases |moves|
  {
    if moves != [] {
      hide WellJoined, StartsClean, SuccessOnly, CanMove, Moved, Invariant, PredecessorsFinished, FinishedHaveRows;
      var n := |moves| - 1;
      PlayFinished(new_, moves[..n]);
      PlayInvariant(new_, moves[..n]);
      MoveKeepsFinished(new_.definition, Play(new_.definition, NewPlay(new_), moves[..n]), moves[n]);
    }
  }

  /** The validator's promise, over all runs: in an accepted flow that starts clean and whose
      steps without needs are only reached by success, every step guaranteed before a step with
      a row has completed, on some attempt. */
  lemma GuaranteedHaveCompleted(new_: NewRun, moves: seq<Move>, id: StepId, before: set<StepId>)
    requires Accepted(new_.definition) && StartsClean(new_.definition) && SuccessOnly(new_.definition)
    requires Playable(new_.definition, NewPlay(new_), moves) && Guaranteed(new_.definition, id, before)
    requires id in Play(new_.definition, NewPlay(new_), moves).state.steps
    ensures forall x :: x in before && x != id ==> Finished(Play(new_.definition, NewPlay(new_), moves).trail, x)
  {
    hide *;
    AcceptedJoins(new_.definition);
    PlayFinished(new_, moves);
    FinishedClosure(new_.definition, Play(new_.definition, NewPlay(new_), moves), id, before);
  }

  lemma FinishedClosure(flow: Flow, r: Run, id: StepId, before: set<StepId>)
    requires PredecessorsFinished(flow, r) && FinishedHaveRows(r) && id in r.state.steps && Guaranteed(flow, id, before)
    ensures forall x :: x in before && x != id ==> Finished(r.trail, x)
  {
    hide Direct, DirectGraph, Next, Finished;
    var g, inside := DirectGraph(flow), set x | x in r.state.steps && (x == id || Finished(r.trail, x));
    forall a, b {:trigger b in Next(g, a)} | b in Next(g, a) && a in inside ensures b in inside {
      NextInDirect(flow, a);
      assert b in Direct(flow, a);
    }
    forall b | b in Direct(flow, id) ensures b in inside {}
    assert Closed(g, inside);
  }
}
