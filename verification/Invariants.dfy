/** What every reachable state of a hook-free run satisfies. */
module Invariants {
  import opened Wrappers
  import opened FlowTypes
  import opened RunTypes
  import opened Engine
  import opened Ports
  import opened Store
  import opened Rows
  import opened Core
  import opened Refinement
  import opened Machine

  // ----- rows ---------------------------------------------------------------------------

  /** Rows belong to defined steps, are numbered from 1 and carry a written status; only human
      steps wait for approval. */
  ghost predicate RowsSound(flow: Flow, r: Run) {
    forall id :: id in r.state.steps ==>
      && flow.Defined(id) && r.state.steps[id].stepId == id
      && r.state.steps[id].attempt >= 1 && Written(r.state.steps[id].status)
      && (r.state.steps[id].status.WaitingApproval? ==> flow.StepOf(id).value.humanLoop)
  }

  /** A step is only marked failed once its attempt number exceeds its retries. */
  ghost predicate FailuresSpent(flow: Flow, r: Run) {
    forall id :: id in r.state.steps && r.state.steps[id].status.Failed? && flow.Defined(id) ==>
      r.state.steps[id].attempt > flow.StepOf(id).value.retries
  }

  // ----- phase --------------------------------------------------------------------------

  /** The stored phase is Running exactly while some latest attempt is active, and the
      cancelled flag is only set on a cancelled run. */
  ghost predicate PhaseTracks(r: Run) {
    && (r.state.steps != map[] ==> (r.phase == RunPhase.Running <==> SomeActive(r.state)))
    && (r.state.cancelled ==> r.phase == RunPhase.Cancelled)
  }

  ghost predicate PhaseDerived(r: Run) {
    r.state.steps != map[] ==> r.phase == Phase(r.state)
  }

  // ----- log ----------------------------------------------------------------------------

  predicate StatusType(t: RunEventType) {
    t.StepActivated? || t.StepWaitingApproval? || t.StepCompleted? || t.StepFailed?
  }

  /** The last record of the trail that says something about the status of `id`. */
  function LastSaid(trail: seq<RunEventRecord>, id: StepId): Option<RunEventType> {
    if trail == [] then None
    else
      var n := |trail| - 1;
      if trail[n].stepId == Some(id) && StatusType(trail[n].eventType) then Some(trail[n].eventType)
      else LastSaid(trail[..n], id)
  }

  function SaidBy(status: StepStatus): Option<RunEventType> {
    match status
    case Running => Some(StepActivated)
    case WaitingApproval => Some(StepWaitingApproval)
    case Completed => Some(RunEventType.StepCompleted)
    case Failed => Some(RunEventType.StepFailed)
    case FailedRejected => Some(RunEventType.StepFailed)
    case _ => None
  }

  ghost predicate LogAgrees(r: Run) {
    forall id :: id in r.state.steps && !r.state.steps[id].status.Cancelled? ==>
      LastSaid(r.trail, id) == SaidBy(r.state.steps[id].status)
  }

  predicate EndRecord(e: RunEventRecord) {
    e.eventType.RunCompleted? || e.eventType.RunFailed? || e.eventType.RunCancelled?
  }

  function CountEnds(trail: seq<RunEventRecord>): nat {
    if trail == [] then 0
    else CountEnds(trail[..|trail| - 1]) + (if EndRecord(trail[|trail| - 1]) then 1 else 0)
  }

  ghost predicate EndsOnce(r: Run) {
    CountEnds(r.trail) == if r.phase == RunPhase.Running then 0 else 1
  }

  ghost predicate Invariant(flow: Flow, r: Run) {
    NoVerdictYet(r.state.steps) && RowsSound(flow, r) && FailuresSpent(flow, r) && PhaseTracks(r) && LogAgrees(r)
    && EndsOnce(r)
  }

  // ----- one move -----------------------------------------------------------------------

  lemma KeepsRows(flow: Flow, r: Run, event: Event, e: Effect, j: nat)
    requires NoVerdictYet(r.state.steps) && Enabled(r.state, event) && Transition(flow, r.state, event) == Ok(e)
    requires j <= |e.activations| && RowsSound(flow, r) && FailuresSpent(flow, r)
    ensures RowsSound(flow, After(r, e, j)) && FailuresSpent(flow, After(r, e, j))
  {
    hide Transition, Enabled, NoVerdictYet, Ends, Activates, RowAfter, After, NextAttempts, CancelIds, MarkedSteps;
    AfterRows(flow, r, event, e, j);
    EffectNextAttempts(flow, r.state, event, e);
    FailedMark(flow, r.state, event, e);
    WaitingIsHuman(flow, r.state, event, e);
    var after := After(r, e, j).state.steps;
    forall id | id in after
      ensures flow.Defined(id) && after[id].stepId == id && after[id].attempt >= 1 && Written(after[id].status)
      ensures after[id].status.WaitingApproval? ==> flow.StepOf(id).value.humanLoop
      ensures after[id].status.Failed? ==> after[id].attempt > flow.StepOf(id).value.retries
    {
      assert RowAfter(r.state.steps, event, e, j, after, id);
      RowSoundAt(flow, r.state.steps, event, e, j, after, id);
    }
  }

  lemma RowSoundAt(flow: Flow, before: Steps, event: Event, e: Effect, j: nat, after: Steps, id: StepId)
    requires j <= |e.activations| && RowAfter(before, event, e, j, after, id) && id in after
    requires NextAttempts(flow, e.next.steps, e.activations)
    requires e.mark.Some? ==> Settles(e.mark.value.status)
    requires id in before ==>
               flow.Defined(id) && before[id].stepId == id && before[id].attempt >= 1 && Written(before[id].status)
    requires id in before && before[id].status.Failed? ==> before[id].attempt > flow.StepOf(id).value.retries
    requires id in before && e.mark == Some(Mark(id, StepStatus.Failed)) ==>
               before[id].attempt > flow.StepOf(id).value.retries
    requires id in before && before[id].status.WaitingApproval? ==> flow.StepOf(id).value.humanLoop
    requires id in before && e.mark == Some(Mark(id, WaitingApproval)) ==> flow.StepOf(id).value.humanLoop
    ensures flow.Defined(id) && after[id].stepId == id && after[id].attempt >= 1 && Written(after[id].status)
    ensures after[id].status.WaitingApproval? ==> flow.StepOf(id).value.humanLoop
    ensures after[id].status.Failed? ==> after[id].attempt > flow.StepOf(id).value.retries
  {
    if id in ActIds(e.activations[..j]) {
      var a :| a in e.activations[..j] && a.stepId == id;
      assert a in e.activations;
    }
  }

  /** Only a human step is left waiting for approval. */
  lemma WaitingIsHuman(flow: Flow, state: RunState, event: Event, e: Effect)
    requires Transition(flow, state, event) == Ok(e)
    ensures forall id :: e.mark == Some(Mark(id, WaitingApproval)) ==>
              flow.Defined(id) && flow.StepOf(id).value.humanLoop
  {
    hide ActivateTargets, BuildContext, AllTerminal, Phase, Unreached, ActiveExcluding, FailedState, Upsert;
  }

  /** A failure is only marked past the retry budget. */
  lemma FailedMark(flow: Flow, state: RunState, event: Event, e: Effect)
    requires Enabled(state, event) && Transition(flow, state, event) == Ok(e)
    ensures forall id :: e.mark == Some(Mark(id, StepStatus.Failed)) && id in state.steps ==>
              flow.Defined(id) && state.steps[id].attempt > flow.StepOf(id).value.retries
  {
    hide ActivateTargets, BuildContext, AllTerminal, Phase, Unreached, ActiveExcluding, FailedState, Upsert;
  }

  lemma KeepsPhase(flow: Flow, r: Run, event: Event, e: Effect, j: nat)
    requires NoVerdictYet(r.state.steps) && Enabled(r.state, event) && Transition(flow, r.state, event) == Ok(e)
    requires r.phase == RunPhase.Running && RowsSound(flow, r) && FailuresSpent(flow, r) && PhaseTracks(r)
    requires j <= |e.activations| && (e.activations != [] ==> j > 0)
    ensures PhaseTracks(After(r, e, j))
    ensures !event.RunDeadlineExceeded? ==> PhaseDerived(After(r, e, j))
  {
    hide *;
    EffectShape(flow, r.state, event, e);
    AfterRows(flow, r, event, e, j);
    KeepsRows(flow, r, event, e, j);
    if j > 0 {
      PhaseActivating(flow, r, event, e, j);
    } else if event.RunDeadlineExceeded? || event.CancelRequested? {
      PhaseStopped(flow, r, event, e);
    } else if e.finish.Some? {
      PhaseEnded(flow, r, event, e);
    } else {
      PhaseWaiting(flow, r, event, e);
    }
  }

  lemma PhaseActivating(flow: Flow, r: Run, event: Event, e: Effect, j: nat)
    requires r.phase == RunPhase.Running && PhaseTracks(r) && 0 < j <= |e.activations| && Ends(flow, event, e)
    requires forall id :: RowAfter(r.state.steps, event, e, j, After(r, e, j).state.steps, id)
    ensures PhaseTracks(After(r, e, j)) && PhaseDerived(After(r, e, j))
  {
    var id := e.activations[0].stepId;
    hide RowAfter, SomeActive, AllTerminal, Phase, Overlay;
    ActivatedRow(r.state.steps, event, e, j, After(r, e, j).state.steps);
    Activity(After(r, e, j), id);
  }

  lemma ActivatedRow(before: Steps, event: Event, e: Effect, j: nat, after: Steps)
    requires 0 < j <= |e.activations|
    requires RowAfter(before, event, e, j, after, e.activations[0].stepId)
    ensures e.activations[0].stepId in after && Fresh(after[e.activations[0].stepId])
  {
    assert e.activations[..j][0] == e.activations[0];
  }

  lemma PhaseEnded(flow: Flow, r: Run, event: Event, e: Effect)
    requires r.phase == RunPhase.Running && PhaseTracks(r) && Ends(flow, event, e) && NextIsMarked(r.state, event, e)
    requires e.finish.Some? && !event.RunDeadlineExceeded? && !event.CancelRequested?
    ensures PhaseTracks(After(r, e, 0)) && PhaseDerived(After(r, e, 0))
  {
    hide CancelIds, MarkedSteps;
    NoneActivated(r, e);
  }

  lemma PhaseStopped(flow: Flow, r: Run, event: Event, e: Effect)
    requires event.RunDeadlineExceeded? || event.CancelRequested?
    requires r.phase == RunPhase.Running && PhaseTracks(r) && RowsSound(flow, r)
    requires Enabled(r.state, event) && Transition(flow, r.state, event) == Ok(e)
    ensures PhaseTracks(After(r, e, 0))
    ensures event.CancelRequested? ==> PhaseDerived(After(r, e, 0))
  {
    hide ActiveExcluding, RowsSound, CancelActive;
    NoneActivated(r, e);
    StoppedRows(flow, r);
    StoppedIsCancelled(r.state);
  }

  /** Stopping a run cancels what is active, where no step of an empty id is. */
  lemma StoppedIsCancelled(state: RunState)
    requires !PassedOver(state)
    ensures StoppedState(state) == CancelActive(state)
  {
    assert StoppedState(state).steps == CancelActive(state).steps;
  }

  /** Stopping leaves nothing active, and something cancelled if anything was active. */
  lemma StoppedRows(flow: Flow, r: Run)
    requires RowsSound(flow, r)
    ensures AllTerminal(CancelActive(r.state)) && !SomeActive(CancelActive(r.state))
    ensures CancelActive(r.state).steps.Keys == r.state.steps.Keys
    ensures SomeActive(r.state) ==> SomeStatus(CancelActive(r.state), StepStatus.Cancelled)
  {
    hide Phase;
    var stopped := CancelActive(r.state);
    forall id | id in stopped.steps
      ensures stopped.steps[id].status.IsTerminal() && !stopped.steps[id].status.IsActive() {
      assert Written(r.state.steps[id].status);
    }
    if SomeActive(r.state) {
      var id :| id in r.state.steps && r.state.steps[id].status.IsActive();
      assert stopped.steps[id].status.Cancelled?;
    }
  }

  lemma PhaseWaiting(flow: Flow, r: Run, event: Event, e: Effect)
    requires r.phase == RunPhase.Running && PhaseTracks(r) && Ends(flow, event, e)
    requires e.finish.None? && e.activations == [] && NextIsMarked(r.state, event, e)
    requires Enabled(r.state, event)
    requires RowsSound(flow, After(r, e, 0))
    ensures PhaseTracks(After(r, e, 0)) && PhaseDerived(After(r, e, 0))
  {
    NoneActivated(r, e);
    hide RowsSound, CancelIds, MarkedSteps;
    if !event.RunStarted? {
      SomethingLeft(flow, After(r, e, 0));
    }
  }

  lemma Activity(r: Run, id: StepId)
    requires id in r.state.steps && r.state.steps[id].status.IsActive()
    ensures SomeActive(r.state) && Phase(r.state) == RunPhase.Running
  {
  }

  lemma NoneActivated(r: Run, e: Effect)
    ensures After(r, e, 0).state.steps == e.next.steps
  {
  }

  lemma SomethingLeft(flow: Flow, r: Run)
    requires RowsSound(flow, r) && !AllTerminal(r.state)
    ensures SomeActive(r.state) && Phase(r.state) == RunPhase.Running
  {
    var id :| id in r.state.steps && !r.state.steps[id].status.IsTerminal();
    Activity(r, id);
  }

  // ----- the log ------------------------------------------------------------------------

  lemma {:induction false} LastSaidConcat(a: seq<RunEventRecord>, b: seq<RunEventRecord>, id: StepId)
    ensures LastSaid(a + b, id) == if LastSaid(b, id).Some? then LastSaid(b, id) else LastSaid(a, id)
    decreases |b|
  {
    if b == [] {
      assert a + b == a;
    } else {
      var n := |b| - 1;
      assert (a + b)[..|a + b| - 1] == a + b[..n];
      LastSaidConcat(a, b[..n], id);
    }
  }

  lemma {:induction false} ActNotesSay(acts: seq<StepActivation>, id: StepId)
    ensures LastSaid(ActNotes(acts), id) == if id in ActIds(acts) then Some(StepActivated) else None
    ensures CountEnds(ActNotes(acts)) == 0
  {
    if acts != [] {
      var n := |acts| - 1;
      ActNotesSay(acts[..n], id);
      ActIdsSnoc(acts, n);
      assert acts[..n + 1] == acts;
      var before := ActNotes(acts[..n]);
      var e := RunEventRecord(StepActivated, Some(acts[n].stepId));
      assert (before + [e])[..|before|] == before;
    }
  }

  lemma MarkNotesSay(mark: Option<Mark>, id: StepId)
    requires mark.Some? ==> Settles(mark.value.status)
    ensures LastSaid(MarkNotes(mark), id) ==
            if mark.Some? && mark.value.stepId == id then SaidBy(mark.value.status) else None
    ensures CountEnds(MarkNotes(mark)) == 0
  {
    match mark {
      case None =>
      case Some(m) =>
        var e := MarkNotes(mark)[0];
        assert MarkNotes(mark) == [e] && [e][..0] == [];
    }
  }

  lemma EndNotesSay(finish: Option<RunPhase>, id: StepId)
    ensures LastSaid(EndNotes(finish), id) == None
    ensures CountEnds(EndNotes(finish)) == if finish.Some? && finish.value != RunPhase.Running then 1 else 0
  {
    if finish.Some? && finish.value != RunPhase.Running {
      var e := EndNotes(finish)[0];
      assert EndNotes(finish) == [e] && [e][..0] == [];
    }
  }

  lemma {:induction false} CountEndsConcat(a: seq<RunEventRecord>, b: seq<RunEventRecord>)
    ensures CountEnds(a + b) == CountEnds(a) + CountEnds(b)
    decreases |b|
  {
    if b == [] {
      assert a + b == a;
    } else {
      var n := |b| - 1;
      assert (a + b)[..|a + b| - 1] == a + b[..n];
      CountEndsConcat(a, b[..n]);
    }
  }

  /** What the records of one effect say about `id`: its activation, else its mark, else
      whatever was said before. */
  lemma AfterSays(r: Run, e: Effect, j: nat, id: StepId)
    requires j <= |e.activations| && (e.mark.Some? ==> Settles(e.mark.value.status))
    ensures LastSaid(After(r, e, j).trail, id) ==
            if id in ActIds(e.activations[..j]) then Some(StepActivated)
            else if e.mark.Some? && e.mark.value.stepId == id then SaidBy(e.mark.value.status)
            else LastSaid(r.trail, id)
  {
    hide LastSaid, CountEnds, ActNotes, MarkNotes, EndNotes, ActIds;
    var acts := e.activations[..j];
    MarkNotesSay(e.mark, id);
    ActNotesSay(acts, id);
    EndNotesSay(e.finish, id);
    LastSaidConcat(r.trail, MarkNotes(e.mark), id);
    LastSaidConcat(r.trail + MarkNotes(e.mark), ActNotes(acts), id);
    LastSaidConcat(r.trail + MarkNotes(e.mark) + ActNotes(acts), EndNotes(e.finish), id);
  }

  lemma KeepsLog(r: Run, event: Event, e: Effect, j: nat)
    requires LogAgrees(r) && j <= |e.activations|
    requires e.mark.Some? ==> Settles(e.mark.value.status)
    requires forall id :: RowAfter(r.state.steps, event, e, j, After(r, e, j).state.steps, id)
    ensures LogAgrees(After(r, e, j))
  {
    var after := After(r, e, j);
    hide After, RowAfter, LastSaid, ActIds;
    forall id | id in after.state.steps && !after.state.steps[id].status.Cancelled?
      ensures LastSaid(after.trail, id) == SaidBy(after.state.steps[id].status)
    {
      AfterSays(r, e, j, id);
      StatusAfter(r.state.steps, event, e, j, after.state.steps, id);
    }
  }

  lemma StatusAfter(before: Steps, event: Event, e: Effect, j: nat, after: Steps, id: StepId)
    requires j <= |e.activations| && RowAfter(before, event, e, j, after, id) && id in after
    ensures if id in ActIds(e.activations[..j]) then after[id].status == StepStatus.Running
            else id in before &&
                 if e.mark.Some? && e.mark.value.stepId == id then after[id].status == e.mark.value.status
                 else after[id].status.Cancelled? || after[id] == before[id]
  {
  }

  lemma KeepsEnds(flow: Flow, r: Run, event: Event, e: Effect, j: nat)
    requires EndsOnce(r) && r.phase == RunPhase.Running && Ends(flow, event, e) && j <= |e.activations|
    requires e.mark.Some? ==> Settles(e.mark.value.status)
    ensures EndsOnce(After(r, e, j))
  {
    hide LastSaid, CountEnds, ActNotes, MarkNotes, EndNotes;
    var acts := e.activations[..j];
    MarkNotesSay(e.mark, "");
    ActNotesSay(acts, "");
    EndNotesSay(e.finish, "");
    CountEndsConcat(r.trail, MarkNotes(e.mark));
    CountEndsConcat(r.trail + MarkNotes(e.mark), ActNotes(acts));
    CountEndsConcat(r.trail + MarkNotes(e.mark) + ActNotes(acts), EndNotes(e.finish));
  }

  // ----- every reachable state ----------------------------------------------------------

  lemma MoveKeepsInvariant(flow: Flow, r: Run, m: Move)
    requires Invariant(flow, r) && CanMove(flow, r, m)
    ensures Invariant(flow, Moved(flow, r, m))
  {
    MoveKeepsNoVerdict(flow, r, m);
    match m {
      case Logged(e) =>
        SideNoteSilent(r, e);
      case Did(event, j) =>
        var e := Transition(flow, r.state, event).value;
        hide Transition, Enabled, NoVerdictYet, RowsSound, FailuresSpent, PhaseTracks, LogAgrees, EndsOnce, After,
             RowAfter;
        AfterRows(flow, r, event, e, j);
        KeepsRows(flow, r, event, e, j);
        KeepsPhase(flow, r, event, e, j);
        KeepsLog(r, event, e, j);
        KeepsEnds(flow, r, event, e, j);
    }
  }

  lemma SideNoteSilent(r: Run, e: RunEventRecord)
    requires SideNote(e)
    ensures LogAgrees(r) ==> LogAgrees(Noted(r, e))
    ensures EndsOnce(r) ==> EndsOnce(Noted(r, e))
  {
    assert (r.trail + [e])[..|r.trail|] == r.trail;
  }

  /** Of a reachable state, only that no verdict is recorded too early. */
  lemma VerdictsOpen(flow: Flow, r: Run)
    requires Invariant(flow, r)
    ensures NoVerdictYet(r.state.steps)
  {
  }

  lemma NewInvariant(new_: NewRun)
    ensures Invariant(new_.definition, NewPlay(new_)) && PhaseDerived(NewPlay(new_))
  {
  }

  /** Every play from a new run keeps the invariant. */
  lemma {:induction false} PlayInvariant(new_: NewRun, moves: seq<Move>)
    requires Playable(new_.definition, NewPlay(new_), moves)
    ensures Invariant(new_.definition, Play(new_.definition, NewPlay(new_), moves))
    decreases |moves|
  {
    NewInvariant(new_);
    if moves != [] {
      hide Invariant, CanMove, Moved;
      var n := |moves| - 1;
      PlayInvariant(new_, moves[..n]);
      MoveKeepsInvariant(new_.definition, Play(new_.definition, NewPlay(new_), moves[..n]), moves[n]);
    }
  }

  predicate HitsDeadline(m: Move) {
    m.Did? && m.event.RunDeadlineExceeded?
  }

  /** The stored phase is the phase derived from the latest attempts, unless a deadline ended
      the run. */
  lemma {:induction false} PhaseIsDerived(new_: NewRun, moves: seq<Move>)
    requires Playable(new_.definition, NewPlay(new_), moves)
    requires forall m :: m in moves ==> !HitsDeadline(m)
    ensures PhaseDerived(Play(new_.definition, NewPlay(new_), moves))
    decreases |moves|
  {
    var start := NewPlay(new_);
    if moves != [] {
      var n := |moves| - 1;
      var flow, r, m := new_.definition, Play(new_.definition, start, moves[..n]), moves[n];
      assert m in moves && forall x :: x in moves[..n] ==> x in moves;
      PhaseIsDerived(new_, moves[..n]);
      PlayInvariant(new_, moves[..n]);
      if m.Did? {
        KeepsPhase(flow, r, m.event, Transition(flow, r.state, m.event).value, m.j);
      }
    }
  }

  /** After a deadline the stored phase is Failed, and the derived phase agrees exactly when
      some step had failed on its own. */
  lemma DeadlinePhase(flow: Flow, r: Run, e: Effect)
    requires Invariant(flow, r) && r.phase == RunPhase.Running && r.state.steps != map[]
    requires Enabled(r.state, RunDeadlineExceeded) && Transition(flow, r.state, RunDeadlineExceeded) == Ok(e)
    ensures var after := After(r, e, 0);
            && after.phase == RunPhase.Failed
            && (PhaseDerived(after) <==> SomeStatus(r.state, StepStatus.Failed) || SomeStatus(r.state, FailedRejected))
  {
    hide ActiveExcluding, NoVerdictYet, RowsSound, FailuresSpent, LogAgrees, EndsOnce, CancelActive, SomeStatus,
         SomeActive, AllTerminal;
    NoneActivated(r, e);
    StoppedRows(flow, r);
    StoppedStatus(r.state, StepStatus.Failed);
    StoppedStatus(r.state, FailedRejected);
    StoppedIsCancelled(r.state);
    var after := After(r, e, 0);
    assert after.state == CancelActive(r.state);
  }

  lemma StoppedStatus(state: RunState, status: StepStatus)
    requires !status.IsActive() && !status.Cancelled?
    ensures SomeStatus(CancelActive(state), status) <==> SomeStatus(state, status)
    ensures CancelActive(state) == state.(steps := CancelActive(state).steps)
  {
    forall id | id in state.steps
      ensures CancelActive(state).steps[id].status == status <==> state.steps[id].status == status {}
  }

  /** Exactly when stopping a run leaves something active behind: when a step with an empty id
      is active, and then only that step. */
  lemma StopReachesAll(flow: Flow, r: Run, event: Event, e: Effect)
    requires RowsSound(flow, r) && (event.RunDeadlineExceeded? || event.CancelRequested?)
    requires Transition(flow, r.state, event) == Ok(e)
    ensures After(r, e, 0).phase != RunPhase.Running
    ensures SomeActive(After(r, e, 0).state) <==> PassedOver(r.state)
    ensures Enabled(r.state, event) <==> !PassedOver(r.state)
    ensures forall id :: id in e.next.steps && e.next.steps[id].status.IsActive() ==> id == NOTHING
  {
    hide ActiveExcluding, RowsSound;
    NoneActivated(r, e);
    assert NOTHING in r.state.steps ==> e.next.steps[NOTHING] == r.state.steps[NOTHING];
  }
}
