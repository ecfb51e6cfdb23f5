/** A run as a state machine: the events that reach it, with crash points between the
    batches they flush, and the writes that happen outside the run's lock. Every such
    history of the store is matched by a play of the core. */
module Machine {
  import opened Wrappers
  import opened FlowTypes
  import opened RunTypes
  import opened Engine
  import opened Ports
  import opened Store
  import opened Scheduler
  import opened Rows
  import opened Core
  import opened Refinement

  // ----- plays of the core --------------------------------------------------------------

  /** An accepted event whose first `j` activations were persisted, or a record logged by a
      use case around the run. */
  datatype Move = Did(event: Event, j: nat) | Logged(record: RunEventRecord)

  /** The events that say nothing about a step's status or the run's end. */
  predicate SideNote(e: RunEventRecord) {
    e.eventType.RunStarted? || e.eventType.StepStarted? || e.eventType.ApprovalResolved?
  }

  predicate CanMove(flow: Flow, r: Run, m: Move) {
    match m
    case Logged(e) => SideNote(e)
    case Did(event, j) =>
      && r.phase == RunPhase.Running
      && Enabled(r.state, event)
      && Transition(flow, r.state, event).Ok?
      && var acts := Transition(flow, r.state, event).value.activations;
         j <= |acts| && (acts != [] ==> j > 0)
  }

  function Moved(flow: Flow, r: Run, m: Move): Run {
    if !CanMove(flow, r, m) then r
    else match m
      case Logged(e) => Noted(r, e)
      case Did(event, j) => After(r, Transition(flow, r.state, event).value, j)
  }

  function Play(flow: Flow, start: Run, moves: seq<Move>): Run {
    if moves == [] then start
    else Moved(flow, Play(flow, start, moves[..|moves| - 1]), moves[|moves| - 1])
  }

  predicate Playable(flow: Flow, start: Run, moves: seq<Move>) {
    moves == [] ||
    (Playable(flow, start, moves[..|moves| - 1])
     && CanMove(flow, Play(flow, start, moves[..|moves| - 1]), moves[|moves| - 1]))
  }

  // ----- what a move does to each row ---------------------------------------------------

  /** The row of `id` after an effect: fresh if it was activated, marked if the event was
      about it, cancelled if it was cancelled, and otherwise as it was. */
  ghost predicate RowAfter(before: Steps, event: Event, e: Effect, j: nat, after: Steps, id: StepId)
    requires j <= |e.activations|
  {
    var acts := e.activations[..j];
    && (id in after <==> id in before || id in ActIds(acts))
    && (id in ActIds(acts) ==>
          && Fresh(after[id]) && after[id].stepId == id
          && after[id].attempt == (if id in before then before[id].attempt + 1 else 1))
    && (id in before && id !in ActIds(acts) ==>
          after[id] ==
          if e.mark.Some? && e.mark.value.stepId == id then MarkedRun(event, e.mark.value.status, before[id])
          else if id in e.cancels then before[id].(status := StepStatus.Cancelled)
          else before[id])
  }

  lemma AfterRowAt(flow: Flow, before: Steps, event: Event, e: Effect, j: nat, id: StepId)
    requires j <= |e.activations| && NextAttempts(flow, e.next.steps, e.activations)
    requires e.next.steps == CancelIds(MarkedSteps(before, event, e.mark), e.cancels)
    requires e.mark.Some? ==> e.mark.value.stepId in before && e.mark.value.stepId !in e.cancels
    ensures RowAfter(before, event, e, j, Overlay(e.next.steps, e.activations[..j]), id)
  {
    hide CancelIds, Overlay, Fresh, NextAttempts, ActIds;
    CancelledAt(MarkedSteps(before, event, e.mark), e.cancels, id);
    OverlaidAt(flow, e.next.steps, e.activations, j, id);
  }

  lemma CancelledAt(steps: Steps, ids: seq<StepId>, id: StepId)
    ensures id in CancelIds(steps, ids) <==> id in steps
    ensures id in steps ==>
              CancelIds(steps, ids)[id] == if id in ids then steps[id].(status := StepStatus.Cancelled) else steps[id]
  {
    CancelIdsAt(steps, ids);
  }

  lemma OverlaidAt(flow: Flow, steps: Steps, acts: seq<StepActivation>, j: nat, id: StepId)
    requires j <= |acts| && NextAttempts(flow, steps, acts)
    ensures id in Overlay(steps, acts[..j]) <==> id in steps || id in ActIds(acts[..j])
    ensures id in steps && id !in ActIds(acts[..j]) ==> Overlay(steps, acts[..j])[id] == steps[id]
    ensures id in ActIds(acts[..j]) ==>
              && Fresh(Overlay(steps, acts[..j])[id])
              && Overlay(steps, acts[..j])[id].stepId == id
              && Overlay(steps, acts[..j])[id].attempt == (if id in steps then steps[id].attempt + 1 else 1)
  {
    assert forall a :: a in acts[..j] ==> a in acts;
    OverlayAt(flow, steps, acts[..j]);
  }

  lemma AfterRows(flow: Flow, r: Run, event: Event, e: Effect, j: nat)
    requires Enabled(r.state, event) && NoVerdictYet(r.state.steps)
    requires Transition(flow, r.state, event) == Ok(e) && j <= |e.activations|
    ensures NextIsMarked(r.state, event, e) && Ends(flow, event, e) && Activates(flow, r.state, event, e)
    ensures forall id :: RowAfter(r.state.steps, event, e, j, After(r, e, j).state.steps, id)
  {
    EffectShape(flow, r.state, event, e);
    EffectNextAttempts(flow, r.state, event, e);
    hide Ends, Activates, Transition, Enabled, NoVerdictYet, RowAfter, CancelIds, Overlay, NextAttempts;
    forall id ensures RowAfter(r.state.steps, event, e, j, After(r, e, j).state.steps, id) {
      AfterRowAt(flow, r.state.steps, event, e, j, id);
    }
  }

  // ----- histories of the store ---------------------------------------------------------

  /** One thing that happens to a stored run: an event is submitted and its batches flushed
      up to a crash, a job handle is saved, or a use case logs a record. */
  datatype Action =
    | Submit(event: Event, flushed: nat)
    | JobStarted(stepId: StepId, attempt: nat, jobId: string)
    | Log(record: RunEventRecord)

  predicate Possible(v: RunView, a: Action) {
    match a
    case Submit(event, _) => Enabled(RunStateOf(v.rec), event)
    case JobStarted(_, _, _) => true
    case Log(e) => SideNote(e)
  }

  function Happens(v: RunView, a: Action): RunView {
    match a
    case Submit(event, flushed) => SubmittedUpTo(v, event, flushed)
    case JobStarted(id, n, job) => ApplyBatches(v, [[SetJobId(id, n, Some(job)), Note(StepStarted, id)]])
    case Log(e) => ApplyBatches(v, [[AppendEvent(e)]])
  }

  ghost predicate History(v: RunView, actions: seq<Action>) {
    actions == [] ||
    (History(v, actions[..|actions| - 1]) && Possible(StoredAfter(v, actions[..|actions| - 1]), actions[|actions| - 1]))
  }

  /** The stored view after a history. */
  function StoredAfter(v: RunView, actions: seq<Action>): RunView {
    if actions == [] then v else Happens(StoredAfter(v, actions[..|actions| - 1]), actions[|actions| - 1])
  }

  function NewView(id: RunId, new_: NewRun): RunView {
    RunView(Created(id, new_), [])
  }

  function NewPlay(new_: NewRun): Run {
    Run(RunState(map[], false, new_.inputs, new_.trigger), RunPhase.Running, [])
  }

  lemma NewShows(id: RunId, new_: NewRun)
    ensures Shows(NewView(id, new_), new_.definition, NewPlay(new_))
  {
    NoRows();
  }

  // ----- verdicts -----------------------------------------------------------------------

  lemma MoveKeepsNoVerdict(flow: Flow, r: Run, m: Move)
    requires NoVerdictYet(r.state.steps) && CanMove(flow, r, m)
    ensures NoVerdictYet(Moved(flow, r, m).state.steps)
  {
    if m.Did? {
      var e := Transition(flow, r.state, m.event).value;
      AfterRows(flow, r, m.event, e, m.j);
      WaitingMark(flow, r.state, m.event, e);
      var after := After(r, e, m.j).state.steps;
      hide Ends, Activates, Transition, Enabled, After, NextIsMarked, RowAfter;
      forall id | id in after && after[id].status.IsActive()
        ensures after[id].feedback.None? && after[id].approvalComment.None? && after[id].approvalStatus.None?
      {
        NoVerdictAt(r.state.steps, m.event, e, m.j, after, id);
      }
    }
  }

  /** The only mark that leaves a step active is that of a completed job awaiting approval. */
  lemma WaitingMark(flow: Flow, state: RunState, event: Event, e: Effect)
    requires Enabled(state, event) && Transition(flow, state, event) == Ok(e)
    ensures e.mark.Some? && e.mark.value.status.IsActive() ==>
              event.StepCompleted? && HasStatus(state, e.mark.value.stepId, StepStatus.Running)
  {
  }

  lemma NoVerdictAt(before: Steps, event: Event, e: Effect, j: nat, after: Steps, id: StepId)
    requires NoVerdictYet(before) && j <= |e.activations|
    requires RowAfter(before, event, e, j, after, id)
    requires e.mark.Some? && e.mark.value.status.IsActive() ==>
               event.StepCompleted? && e.mark.value.stepId in before && before[e.mark.value.stepId].status.IsActive()
    requires id in after && after[id].status.IsActive()
    ensures after[id].feedback.None? && after[id].approvalComment.None? && after[id].approvalStatus.None?
  {
  }

  // ----- every history is a play --------------------------------------------------------

  lemma PlaySnoc(flow: Flow, start: Run, moves: seq<Move>, m: Move)
    ensures Play(flow, start, moves + [m]) == Moved(flow, Play(flow, start, moves), m)
    ensures Playable(flow, start, moves + [m]) <==>
              Playable(flow, start, moves) && CanMove(flow, Play(flow, start, moves), m)
  {
    assert (moves + [m])[..|moves|] == moves;
  }

  /** A saved job handle leaves what the engine sees untouched. */
  lemma JobHandleInvisible(rows: seq<StepRecord>, latest: Steps, i: nat, jobId: Option<string>)
    requires Represents(rows, latest) && i < |rows|
    ensures Represents(rows[i := rows[i].(jobId := jobId)], latest)
  {
    var row := rows[i].(jobId := jobId);
    var rows' := rows[i := row];
    KeysKept(rows, i, row);
    assert rows[i] in rows;
    forall id | id in latest ensures HasRun(rows', latest[id]) {
      assert HasRun(rows, latest[id]);
      var r :| r in rows && r.run == latest[id];
      if r == rows[i] { assert row in rows'; } else { assert r in rows'; }
    }
    forall id, b: nat {:trigger HasAttempt(rows', id, b)} | id in latest && 1 <= b <= latest[id].attempt
      ensures HasAttempt(rows', id, b) {
      assert HasAttempt(rows, id, b);
      var r :| r in rows && HasKey(r, id, b);
      if r == rows[i] { assert HasKey(row, id, b); } else { assert r in rows'; }
    }
  }

  /** Saving a job handle is refused for a row that is not there, and otherwise changes
      nothing that is shown. */
  lemma JobHandleYields(v: RunView, flow: Flow, r: Run, m: Mutation)
    requires Shows(v, flow, r) && m.SetJobId?
    ensures FindRow(v.rec.steps, m.stepId, m.attempt).Some? ==> Yields(v, [m], flow, r)
    ensures FindRow(v.rec.steps, m.stepId, m.attempt).None? ==> ApplyBatch(v, [m]).Err?
  {
    hide Represents;
    SingleBatch(v, m);
    var found := FindRow(v.rec.steps, m.stepId, m.attempt);
    if found.Some? {
      JobHandleInvisible(v.rec.steps, r.state.steps, found.value, m.jobId);
    }
  }

  lemma JobStartedShows(v: RunView, flow: Flow, r: Run, id: StepId, n: nat, job: string)
    requires Shows(v, flow, r)
    ensures var after := Happens(v, JobStarted(id, n, job));
            after == v || Shows(after, flow, Noted(r, RunEventRecord(StepStarted, Some(id))))
  {
    hide Shows, ApplyBatch, ApplyBatches, FindRow;
    var m, e := SetJobId(id, n, Some(job)), RunEventRecord(StepStarted, Some(id));
    assert [m] + [AppendEvent(e)] == [m, Note(StepStarted, id)];
    BatchSplits(v, [m], [AppendEvent(e)]);
    JobHandleYields(v, flow, r, m);
    if FindRow(v.rec.steps, id, n).Some? {
      OneNote(ApplyBatch(v, [m]).value, flow, r, e);
      SingleFlush(v, [m, Note(StepStarted, id)]);
    } else {
      RefusedBatch(v, [m, Note(StepStarted, id)]);
    }
  }

  lemma RefusedBatch(v: RunView, ms: seq<Mutation>)
    requires ApplyBatch(v, ms).Err?
    ensures ApplyBatches(v, [ms]) == v
  {
  }

  lemma LogShows(v: RunView, flow: Flow, r: Run, e: RunEventRecord)
    requires Shows(v, flow, r)
    ensures Shows(Happens(v, Log(e)), flow, Noted(r, e))
  {
    hide Shows;
    OneNote(v, flow, r, e);
    YieldsShows(v, [AppendEvent(e)], flow, Noted(r, e));
    SingleFlush(v, [AppendEvent(e)]);
  }

  lemma NothingSubmitted(v: RunView, flow: Flow, r: Run, event: Event, flushed: nat)
    requires Shows(v, flow, r) && (r.phase != RunPhase.Running || Transition(flow, r.state, event).Err?)
    ensures SubmittedUpTo(v, event, flushed) == v
  {
    hide Represents, Transition;
    ShownState(v, flow, r);
    NoBatches(v);
    assert BatchesFor(v, event) == [] && BatchesFor(v, event)[..0] == [];
  }

  /** Simulation: whatever events arrive, wherever the process stops between batches, and
      whatever is logged around them, the store shows a state some play of the core reaches. */
  lemma {:induction false} Simulates(v: RunView, flow: Flow, start: Run, actions: seq<Action>)
      returns (moves: seq<Move>)
    requires Shows(v, flow, start) && NoVerdictYet(start.state.steps) && History(v, actions)
    ensures Playable(flow, start, moves) && NoVerdictYet(Play(flow, start, moves).state.steps)
    ensures Shows(StoredAfter(v, actions), flow, Play(flow, start, moves))
    decreases |actions|
  {
    if actions == [] {
      return [];
    }
    hide Shows, NoVerdictYet, Possible, Happens, CanMove, Moved;
    var n := |actions| - 1;
    moves := Simulates(v, flow, start, actions[..n]);
    var m := SimulatesOne(StoredAfter(v, actions[..n]), flow, Play(flow, start, moves), actions[n]);
    if m.Some? {
      PlaySnoc(flow, start, moves, m.value);
      moves := moves + [m.value];
    }
  }

  lemma SimulatesOne(v: RunView, flow: Flow, r: Run, a: Action) returns (m: Option<Move>)
    requires Shows(v, flow, r) && NoVerdictYet(r.state.steps) && Possible(v, a)
    ensures m.None? ==> Shows(Happens(v, a), flow, r)
    ensures m.Some? ==> CanMove(flow, r, m.value) && Shows(Happens(v, a), flow, Moved(flow, r, m.value))
    ensures m.Some? ==> NoVerdictYet(Moved(flow, r, m.value).state.steps)
  {
    hide Shows, NoVerdictYet, Enabled, Transition, SubmittedUpTo, After;
    match a {
      case Submit(event, flushed) =>
        if r.phase != RunPhase.Running || Transition(flow, r.state, event).Err? {
          NothingSubmitted(v, flow, r, event, flushed);
          return None;
        }
        ShownState(v, flow, r);
        var e := Transition(flow, r.state, event).value;
        var j := SubmitRefines(v, flow, r, event, e, flushed);
        if j.None? { return None; }
        m := Some(Did(event, j.value));
      case JobStarted(id, n, job) =>
        JobStartedShows(v, flow, r, id, n, job);
        m := if Happens(v, a) == v then None else Some(Logged(RunEventRecord(StepStarted, Some(id))));
      case Log(e) =>
        LogShows(v, flow, r, e);
        m := Some(Logged(e));
    }
    if m.Some? { MoveKeepsNoVerdict(flow, r, m.value); }
  }
}
