/** What each kind of event does to a run, by the step it is about, and what the phase and the
    end record of a run say about its rows. */
module Effects {
  import opened Wrappers
  import opened FlowTypes
  import opened RunTypes
  import opened Engine
  import opened Ports
  import opened Store
  import opened Scheduler
  import opened Rows
  import opened Core
  import opened Machine
  import opened Invariants
  import opened Inputs

  /** A status is Pending, active or terminal, and only one of these. */
  lemma StatusesSplit(s: StepStatus)
    ensures s.IsTerminal() <==> !s.Pending? && !s.IsActive()
    ensures s.IsActive() ==> !s.Pending?
  {
  }

  // ----- marks, cancels, skips ----------------------------------------------------------

  /** The status an event leaves on its step: a job that succeeds waits for approval if its step
      has a human in the loop; a retry and the events about no step leave none. */
  lemma MarksExactly(flow: Flow, state: RunState, event: Event, e: Effect)
    requires Enabled(state, event) && Transition(flow, state, event) == Ok(e)
    ensures StepEvent(event) ==> flow.Defined(event.stepId) && event.stepId in state.steps
    ensures !StepEvent(event) || Retried(flow, state, event) ==> e.mark == None
    ensures StepEvent(event) && !Retried(flow, state, event) ==>
              e.mark.Some? && e.mark.value.stepId == event.stepId &&
              match event
              case StepCompleted(id, _) =>
                if flow.StepOf(id).value.humanLoop then e.mark.value.status.WaitingApproval?
                else e.mark.value.status.Completed?
              case StepFailed(_, _) => e.mark.value.status.Failed?
              case StepApproved(_, _) => e.mark.value.status.Completed?
              case StepRejected(_, _) => e.mark.value.status.FailedRejected?
  {
    hide ActivateTargets, BuildContext, AllTerminal, Phase, Unreached, ActiveExcluding, Upsert, FailedState,
         ApprovedState, RejectedState, ResolveInput, ResolveRejectInput, Dag.IsSelfRejectLoop, FirstStep;
  }

  /** A step that fails for good cancels every other active step; a deadline or a cancel every
      active one, other than one with an empty id; nothing else cancels anything. */
  lemma CancelsExactly(flow: Flow, state: RunState, event: Event, e: Effect, id: StepId)
    requires Enabled(state, event) && Transition(flow, state, event) == Ok(e)
    ensures id in e.cancels <==>
              id in state.steps && state.steps[id].status.IsActive()
              && if event.StepFailed? then !Retried(flow, state, event) && id != event.stepId
                 else (event.RunDeadlineExceeded? || event.CancelRequested?) && id != ""
  {
    CancelsAre(flow, state, event, e);
    if event.StepFailed? { ActiveExactly(state, event.stepId); } else { ActiveExactly(state, NOTHING); }
    hide ActiveExcluding, Transition, Retried;
  }

  lemma CancelsAre(flow: Flow, state: RunState, event: Event, e: Effect)
    requires Enabled(state, event) && Transition(flow, state, event) == Ok(e)
    ensures e.cancels == if event.StepFailed? && !Retried(flow, state, event) then ActiveExcluding(state, event.stepId)
                         else if event.RunDeadlineExceeded? || event.CancelRequested?
                         then ActiveExcluding(state, NOTHING)
                         else []
  {
    hide ActivateTargets, BuildContext, AllTerminal, Phase, Unreached, ActiveExcluding, Upsert, FailedState,
         ApprovedState, RejectedState, ResolveInput, ResolveRejectInput, Dag.IsSelfRejectLoop, FirstStep;
  }

  /** A run that ends by itself skips exactly the defined steps that never had a row. */
  lemma SkipsExactly(flow: Flow, state: RunState, event: Event, e: Effect, id: StepId)
    requires Enabled(state, event) && NoVerdictYet(state.steps) && Transition(flow, state, event) == Ok(e)
    ensures id in e.skips <==> e.finish.Some? && StepEvent(event) && flow.Defined(id) && id !in state.steps
  {
    hide *;
    EffectShape(flow, state, event, e);
    SkipsAre(flow, state, event, e);
    UnreachedExactly(flow.steps, e.next, id);
    SameKeys(state, event, e);
    DefinedIn(flow, id);
    NoSkipsOf(flow, event, e);
  }

  lemma SkipsAre(flow: Flow, state: RunState, event: Event, e: Effect)
    requires Enabled(state, event) && Transition(flow, state, event) == Ok(e)
    ensures e.skips == if e.finish.Some? && StepEvent(event) then Unreached(flow.steps, e.next) else []
  {
    hide ActivateTargets, BuildContext, AllTerminal, Phase, Unreached, ActiveExcluding, Upsert, FailedState,
         ApprovedState, RejectedState, ResolveInput, ResolveRejectInput, Dag.IsSelfRejectLoop, FirstStep;
  }

  lemma {:induction false} UnreachedExactly(steps: seq<Step>, state: RunState, id: StepId)
    ensures id in Unreached(steps, state) <==> id !in state.steps && exists s :: s in steps && s.id == id
  {
    if steps != [] {
      var n := |steps| - 1;
      UnreachedExactly(steps[..n], state, id);
      assert steps == steps[..n] + [steps[n]];
    }
  }

  lemma DefinedIn(flow: Flow, id: StepId)
    ensures flow.Defined(id) <==> exists s :: s in flow.steps && s.id == id
  {
  }

  lemma SameKeys(state: RunState, event: Event, e: Effect)
    requires NextIsMarked(state, event, e)
    ensures e.next.steps.Keys == state.steps.Keys
  {
  }

  lemma NoSkipsOf(flow: Flow, event: Event, e: Effect)
    requires e.skips == [] || (e.finish.Some? && StepEvent(event))
    ensures !(e.finish.Some? && StepEvent(event)) ==> forall id :: id !in e.skips
  {
  }

  // ----- the row of the step an event is about ------------------------------------------

  /** What an event leaves on the row of its own step: its status, and the output, the reason, the
      comment or the feedback it came with; everything else on the row stays. */
  ghost predicate Left(flow: Flow, event: Event, before: StepRun, after: StepRun)
    requires StepEvent(event) && flow.Defined(event.stepId)
  {
    match event
    case StepCompleted(id, output) =>
      after.output == Some(output)
      && (if flow.StepOf(id).value.humanLoop then after.status.WaitingApproval? else after.status.Completed?)
      && after == before.(status := after.status, output := after.output)
    case StepFailed(_, reason) =>
      after.status.Failed? && after.failureReason == Some(reason)
      && after == before.(status := after.status, failureReason := after.failureReason)
    case StepApproved(_, comment) =>
      after.status.Completed? && after.approvalStatus == Some(Approved) && after.approvalComment == comment
      && after.feedback == None
      && after == before.(status := after.status, approvalStatus := after.approvalStatus,
                          approvalComment := after.approvalComment, feedback := after.feedback)
    case StepRejected(_, feedback) =>
      after.status.FailedRejected? && after.approvalStatus == Some(Rejected) && after.feedback == Some(feedback)
      && after.approvalComment == None
      && after == before.(status := after.status, approvalStatus := after.approvalStatus,
                          approvalComment := after.approvalComment, feedback := after.feedback)
  }

  /** In the core: unless the event starts its own step again, its row is left so. */
  lemma OwnRow(flow: Flow, r: Run, event: Event, e: Effect, j: nat)
    requires StepEvent(event) && Enabled(r.state, event) && NoVerdictYet(r.state.steps)
    requires Transition(flow, r.state, event) == Ok(e) && j <= |e.activations|
    requires !Retried(flow, r.state, event) && event.stepId !in ActIds(e.activations[..j])
    ensures flow.Defined(event.stepId) && event.stepId in r.state.steps
    ensures var after := After(r, e, j).state.steps;
            event.stepId in after && Left(flow, event, r.state.steps[event.stepId], after[event.stepId])
  {
    hide *;
    MarksExactly(flow, r.state, event, e);
    AfterRows(flow, r, event, e, j);
    MarkedLeft(flow, r.state.steps, event, e, j, After(r, e, j).state.steps);
  }

  lemma MarkedLeft(flow: Flow, before: Steps, event: Event, e: Effect, j: nat, after: Steps)
    requires StepEvent(event) && flow.Defined(event.stepId) && event.stepId in before && j <= |e.activations|
    requires RowAfter(before, event, e, j, after, event.stepId) && event.stepId !in ActIds(e.activations[..j])
    requires e.mark.Some? && e.mark.value.stepId == event.stepId
    requires match event
             case StepCompleted(id, _) =>
               if flow.StepOf(id).value.humanLoop then e.mark.value.status.WaitingApproval?
               else e.mark.value.status.Completed?
             case StepFailed(_, _) => e.mark.value.status.Failed?
             case StepApproved(_, _) => e.mark.value.status.Completed?
             case StepRejected(_, _) => e.mark.value.status.FailedRejected?
    ensures event.stepId in after && Left(flow, event, before[event.stepId], after[event.stepId])
  {
    hide FirstStep, ActIds;
  }

  // ----- how a run ends -----------------------------------------------------------------

  ghost predicate SomeRow(steps: Steps, statuses: set<StepStatus>) {
    exists id :: id in steps && steps[id].status in statuses
  }

  /** What the phase of a run without a deadline says about its rows. */
  ghost predicate PhaseSays(r: Run) {
    var steps := r.state.steps;
    var active := SomeRow(steps, {StepStatus.Running, WaitingApproval});
    var failed := SomeRow(steps, {StepStatus.Failed, FailedRejected});
    var cancelled := SomeRow(steps, {StepStatus.Cancelled});
    && (r.phase.Running? <==> active)
    && (r.phase.Completed? <==> forall id :: id in steps ==> steps[id].status.Completed?)
    && (r.phase.Failed? <==> !active && failed && !(r.state.cancelled && cancelled))
    && (r.phase.Cancelled? <==> !active && cancelled && (r.state.cancelled || !failed))
  }

  /** The outcome of a run that has rows and hit no deadline: Running while a latest attempt runs
      or waits, Completed when all have completed; otherwise Failed or Cancelled, where a
      failure counts more than a cancelled step unless the run was asked to stop. */
  lemma Outcome(new_: NewRun, moves: seq<Move>)
    requires Playable(new_.definition, NewPlay(new_), moves) && (forall m :: m in moves ==> !HitsDeadline(m))
    requires Play(new_.definition, NewPlay(new_), moves).state.steps != map[]
    ensures PhaseSays(Play(new_.definition, NewPlay(new_), moves))
  {
    hide *;
    PlayInvariant(new_, moves);
    PhaseIsDerived(new_, moves);
    RowsWritten(new_.definition, Play(new_.definition, NewPlay(new_), moves));
    PhaseMeans(Play(new_.definition, NewPlay(new_), moves));
  }

  lemma RowsWritten(flow: Flow, r: Run)
    requires Invariant(flow, r)
    ensures forall id :: id in r.state.steps ==> Written(r.state.steps[id].status)
  {
    hide NoVerdictYet, FailuresSpent, PhaseTracks, LogAgrees, EndsOnce, Written, FirstStep;
  }

  lemma PhaseMeans(r: Run)
    requires r.state.steps != map[] && PhaseDerived(r)
    requires forall id :: id in r.state.steps ==> Written(r.state.steps[id].status)
    ensures PhaseSays(r)
  {
    var state := r.state;
    var some :| some in state.steps;
    assert SomeRow(state.steps, {StepStatus.Running, WaitingApproval}) <==> !AllTerminal(state);
    assert SomeRow(state.steps, {StepStatus.Failed, FailedRejected})
      <==> SomeStatus(state, StepStatus.Failed) || SomeStatus(state, FailedRejected);
    assert SomeRow(state.steps, {StepStatus.Cancelled}) <==> SomeStatus(state, StepStatus.Cancelled);
  }

  /** The log names the end the run came to, and no other. */
  ghost predicate EndSaid(r: Run) {
    && (r.phase.Completed? <==> RunEventRecord(RunCompleted, None) in r.trail)
    && (r.phase.Failed? <==> RunEventRecord(RunFailed, None) in r.trail)
    && (r.phase.Cancelled? <==> RunEventRecord(RunCancelled, None) in r.trail)
  }

  lemma {:induction false} ActNotesEndNothing(acts: seq<StepActivation>)
    ensures forall n :: n in ActNotes(acts) ==> n.eventType.StepActivated?
  {
    if acts != [] { ActNotesEndNothing(acts[..|acts| - 1]); }
  }

  lemma MarkNotesEndNothing(mark: Option<Mark>)
    ensures forall n :: n in MarkNotes(mark) ==> !EndRecord(n)
  {
  }

  lemma AfterEndSaid(r: Run, e: Effect, j: nat)
    requires EndSaid(r) && r.phase.Running? && j <= |e.activations| && e.finish != Some(RunPhase.Running)
    ensures EndSaid(After(r, e, j))
  {
    ActNotesEndNothing(e.activations[..j]);
    MarkNotesEndNothing(e.mark);
    hide MarkNotes, ActNotes, Overlay;
    var middle := r.trail + MarkNotes(e.mark) + ActNotes(e.activations[..j]);
    forall n | n in middle ensures n in r.trail || !EndRecord(n) {}
    if e.finish.Some? {
      assert EndNotes(e.finish) == [RunEventRecord(EndType(e.finish.value), None)];
      assert EndNotes(e.finish)[0] in EndNotes(e.finish);
    }
  }

  lemma MoveKeepsEndSaid(flow: Flow, r: Run, m: Move)
    requires EndSaid(r) && NoVerdictYet(r.state.steps) && CanMove(flow, r, m)
    ensures EndSaid(Moved(flow, r, m))
  {
    hide *;
    match m {
      case Logged(e) => NotedEndSaid(flow, r, m);
      case Did(event, j) =>
        Happened(flow, r, m);
        var e := Transition(flow, r.state, event).value;
        EffectShape(flow, r.state, event, e);
        NotRunning(flow, event, e);
        AfterEndSaid(r, e, j);
    }
  }

  lemma NotRunning(flow: Flow, event: Event, e: Effect)
    requires Ends(flow, event, e)
    ensures e.finish != Some(RunPhase.Running)
  {
  }

  lemma NotedEndSaid(flow: Flow, r: Run, m: Move)
    requires EndSaid(r) && m.Logged? && CanMove(flow, r, m)
    ensures EndSaid(Moved(flow, r, m))
  {
  }

  /** In every reachable state, after a deadline too. */
  lemma {:induction false} EndsSaid(new_: NewRun, moves: seq<Move>)
    requires Playable(new_.definition, NewPlay(new_), moves)
    ensures EndSaid(Play(new_.definition, NewPlay(new_), moves))
    decreases |moves|
  {
    hide *;
    var flow, start := new_.definition, NewPlay(new_);
    NothingSaid(new_);
    if moves != [] {
      LastMove(flow, start, moves);
      var n := |moves| - 1;
      EndsSaid(new_, moves[..n]);
      PlayInvariant(new_, moves[..n]);
      VerdictsOpen(flow, Play(flow, start, moves[..n]));
      MoveKeepsEndSaid(flow, Play(flow, start, moves[..n]), moves[n]);
    }
  }

  lemma NothingSaid(new_: NewRun)
    ensures EndSaid(Play(new_.definition, NewPlay(new_), []))
  {
  }
}
