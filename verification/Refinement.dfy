/** The shell refines the core: what a submitted event leaves in the store, batch by batch,
    is what the engine's effect says. */
module Refinement {
  import opened Wrappers
  import opened FlowTypes
  import opened RunTypes
  import opened Engine
  import opened Ports
  import opened Scheduler
  import opened Rows
  import opened Core

  // ----- the simulation relation --------------------------------------------------------

  function Trail(log: seq<StoredRunEvent>): seq<RunEventRecord> {
    if log == [] then [] else Trail(log[..|log| - 1]) + [log[|log| - 1].record]
  }

  /** The stored view `v` of a run of `flow` shows the run `r`. */
  ghost predicate Shows(v: RunView, flow: Flow, r: Run) {
    && v.rec.definition == flow
    && v.rec.inputs == r.state.inputs && v.rec.trigger == r.state.trigger
    && v.rec.cancelled == r.state.cancelled && v.rec.phase == r.phase
    && Represents(v.rec.steps, r.state.steps)
    && Sequenced(v.log) && Trail(v.log) == r.trail
  }

  lemma ShownState(v: RunView, flow: Flow, r: Run)
    requires Shows(v, flow, r)
    ensures RunStateOf(v.rec) == r.state
  {
    RepresentsLatest(v.rec.steps, r.state.steps);
  }

  /** A batch that applies to `v` and then shows `r`. */
  ghost predicate Yields(v: RunView, ms: seq<Mutation>, flow: Flow, r: Run) {
    ApplyBatch(v, ms).Ok? && Shows(ApplyBatch(v, ms).value, flow, r)
  }

  lemma {:induction false} BatchSplits(v: RunView, a: seq<Mutation>, b: seq<Mutation>)
    ensures ApplyBatch(v, a + b) ==
            if ApplyBatch(v, a).Ok? then ApplyBatch(ApplyBatch(v, a).value, b) else ApplyBatch(v, a)
    decreases |b|
  {
    if b == [] {
      assert a + b == a;
    } else {
      var n := |b| - 1;
      assert (a + b)[..|a + b| - 1] == a + b[..n];
      BatchSplits(v, a, b[..n]);
    }
  }

  lemma Then(v: RunView, a: seq<Mutation>, b: seq<Mutation>, flow: Flow, r: Run)
    requires ApplyBatch(v, a).Ok? && Yields(ApplyBatch(v, a).value, b, flow, r)
    ensures Yields(v, a + b, flow, r)
  {
    BatchSplits(v, a, b);
  }

  lemma YieldsNothing(v: RunView, flow: Flow, r: Run)
    requires Shows(v, flow, r)
    ensures Yields(v, [], flow, r)
  {
  }

  // ----- single mutations ---------------------------------------------------------------

  function WithSteps(r: Run, steps: Steps): Run {
    r.(state := r.state.(steps := steps))
  }

  function Noted(r: Run, e: RunEventRecord): Run {
    r.(trail := r.trail + [e])
  }

  lemma SingleBatch(v: RunView, m: Mutation)
    ensures ApplyBatch(v, [m]) ==
            if ApplyMutation(v.rec, m).Err? then Err(ApplyMutation(v.rec, m).error)
            else Ok(RunView(ApplyMutation(v.rec, m).value,
                            if m.AppendEvent? then v.log + [StoredRunEvent(NextSequence(v.log), m.event)] else v.log))
  {
    assert [m][..0] == [];
    assert ApplyAll(v.rec, []) == Ok(v.rec);
    assert ApplyAll(v.rec, [m]) == ApplyMutation(v.rec, m);
    assert AppendAll(v.log, []) == v.log;
  }

  lemma OnePatch(v: RunView, flow: Flow, r: Run, id: StepId, m: Mutation)
    requires Shows(v, flow, r) && id in r.state.steps
    requires PatchesRow(m) && m.stepId == id && m.attempt == r.state.steps[id].attempt
    requires Written(PatchedRun(m, r.state.steps[id]).status)
    ensures Yields(v, [m], flow, WithSteps(r, r.state.steps[id := PatchedRun(m, r.state.steps[id])]))
  {
    hide Represents;
    PatchLatest(v.rec.steps, r.state.steps, id, m);
    SingleBatch(v, m);
  }

  lemma OneNote(v: RunView, flow: Flow, r: Run, e: RunEventRecord)
    requires Shows(v, flow, r)
    ensures Yields(v, [AppendEvent(e)], flow, Noted(r, e))
  {
    hide Represents;
    SingleBatch(v, AppendEvent(e));
    var log' := v.log + [StoredRunEvent(NextSequence(v.log), e)];
    assert log'[..|log'| - 1] == v.log;
  }

  lemma OneInsert(v: RunView, flow: Flow, r: Run, step: StepRecord)
    requires Shows(v, flow, r) && Written(step.run.status) && Follows(r.state.steps, step.run)
    ensures Yields(v, [InsertStepRun(step)], flow, WithSteps(r, r.state.steps[step.run.stepId := step.run]))
  {
    hide Represents;
    InsertLatest(v.rec.steps, r.state.steps, step);
    SingleBatch(v, InsertStepRun(step));
  }

  lemma OnePhase(v: RunView, flow: Flow, r: Run, phase: RunPhase)
    requires Shows(v, flow, r)
    ensures Yields(v, [SetRunPhase(phase)], flow, r.(phase := phase))
    ensures Yields(v, [SetRunCancelled], flow, r.(state := r.state.(cancelled := true)))
  {
    hide Represents;
    SingleBatch(v, SetRunPhase(phase));
    SingleBatch(v, SetRunCancelled);
  }

  // ----- the writes of one command ------------------------------------------------------

  function Flushed(v: RunView, ms: seq<Mutation>): RunView
    requires ApplyBatch(v, ms).Ok?
  {
    ApplyBatch(v, ms).value
  }

  /** `MarkStepStatus` on the step an event concerns, with the event's data. */
  lemma MarkYields(v: RunView, flow: Flow, r: Run, event: Event, id: StepId, status: StepStatus)
    requires Shows(v, flow, r) && id in r.state.steps && r.state.steps[id].stepId == id
    requires ConcernsStep(event, id) && Settles(status)
    ensures var n := r.state.steps[id].attempt;
            Yields(v, [SetStepStatus(id, n, status)] + EventData(event, id, n) + StatusNote(id, status), flow,
                   Run(r.state.(steps := MarkedSteps(r.state.steps, event, Some(Mark(id, status)))), r.phase,
                       r.trail + MarkNotes(Some(Mark(id, status)))))
  {
    hide *;
    var n := r.state.steps[id].attempt;
    var a, b, c := [SetStepStatus(id, n, status)], EventData(event, id, n), StatusNote(id, status);
    MarkPieces(r, event, id, status);
    OnePatch(v, flow, r, id, a[0]);
    var r1 := WithSteps(r, r.state.steps[id := PatchedRun(a[0], r.state.steps[id])]);
    YieldsShows(v, a, flow, r1);
    var v1 := ApplyBatch(v, a).value;
    OnePatch(v1, flow, r1, id, b[0]);
    var r2 := WithSteps(r1, r1.state.steps[id := PatchedRun(b[0], r1.state.steps[id])]);
    YieldsShows(v1, b, flow, r2);
    OneNote(ApplyBatch(v1, b).value, flow, r2, c[0].event);
    Then(v1, b, c, flow, Noted(r2, c[0].event));
    Then(v, a, b + c, flow, Noted(r2, c[0].event));
    assert a + (b + c) == a + b + c;
  }

  /** A mark is a status, the data of its event and a note, each one write. */
  lemma MarkPieces(r: Run, event: Event, id: StepId, status: StepStatus)
    requires id in r.state.steps && r.state.steps[id].stepId == id && ConcernsStep(event, id) && Settles(status)
    ensures var n := r.state.steps[id].attempt;
            var a, b, c := SetStepStatus(id, n, status), EventData(event, id, n), StatusNote(id, status);
            && PatchesRow(a) && a.stepId == id && a.attempt == n && Written(PatchedRun(a, r.state.steps[id]).status)
            && |b| == 1 && b == [b[0]] && PatchesRow(b[0]) && b[0].stepId == id && b[0].attempt == n
            && |c| == 1 && c == [c[0]] && c[0].AppendEvent?
            && var r1 := WithSteps(r, r.state.steps[id := PatchedRun(a, r.state.steps[id])]);
               && id in r1.state.steps && r1.state.steps[id].attempt == n
               && Written(PatchedRun(b[0], r1.state.steps[id]).status)
               && Noted(WithSteps(r1, r1.state.steps[id := PatchedRun(b[0], r1.state.steps[id])]), c[0].event)
                  == Run(r.state.(steps := MarkedSteps(r.state.steps, event, Some(Mark(id, status)))), r.phase,
                         r.trail + MarkNotes(Some(Mark(id, status))))
  {
  }

  lemma YieldsShows(v: RunView, ms: seq<Mutation>, flow: Flow, r: Run)
    requires Yields(v, ms, flow, r)
    ensures ApplyBatch(v, ms).Ok? && Shows(ApplyBatch(v, ms).value, flow, r)
  {
  }

  /** `WaitApproval` writes the status its mark already wrote. */
  lemma WaitYields(v: RunView, flow: Flow, r: Run, id: StepId)
    requires Shows(v, flow, r) && HasStatus(r.state, id, WaitingApproval)
    ensures Yields(v, [SetStepStatus(id, r.state.steps[id].attempt, WaitingApproval)], flow, r)
  {
    var m := SetStepStatus(id, r.state.steps[id].attempt, WaitingApproval);
    OnePatch(v, flow, r, id, m);
    assert WithSteps(r, r.state.steps[id := PatchedRun(m, r.state.steps[id])]) == r;
  }

  /** `CancelSteps` addresses the rows the record had when the event was loaded. */
  lemma {:induction false} CancelYields(v: RunView, flow: Flow, r: Run, rec: RunRecord, state: RunState,
                                        ids: seq<StepId>)
    requires Shows(v, flow, r) && RunStateOf(rec) == state
    requires forall id :: id in ids ==>
               && id in state.steps && state.steps[id].status.IsActive()
               && id in r.state.steps && r.state.steps[id].attempt == state.steps[id].attempt
    ensures Yields(v, CancelAll(rec, ids), flow, WithSteps(r, CancelIds(r.state.steps, ids)))
  {
    if ids == [] {
      YieldsNothing(v, flow, r);
    } else {
      hide Yields, Shows;
      var n := |ids| - 1;
      var id := ids[n];
      CancelYields(v, flow, r, rec, state, ids[..n]);
      var before := WithSteps(r, CancelIds(r.state.steps, ids[..n]));
      YieldsShows(v, CancelAll(rec, ids[..n]), flow, before);
      CancelIdsAt(r.state.steps, ids[..n]);
      var m := SetStepStatus(id, state.steps[id].attempt, StepStatus.Cancelled);
      assert CancelOne(rec, id) == [m];
      OnePatch(Flushed(v, CancelAll(rec, ids[..n])), flow, before, id, m);
      Then(v, CancelAll(rec, ids[..n]), [m], flow, WithSteps(r, CancelIds(r.state.steps, ids)));
    }
  }

  lemma ActivationYields(v: RunView, flow: Flow, r: Run, act: StepActivation)
    requires Shows(v, flow, r) && Follows(r.state.steps, ActivatedRun(act))
    ensures Yields(v, ActivationWrites(act), flow,
                   Run(r.state.(steps := r.state.steps[act.stepId := ActivatedRun(act)]), r.phase,
                       r.trail + [RunEventRecord(StepActivated, Some(act.stepId))]))
  {
    hide Yields, Shows;
    var e := RunEventRecord(StepActivated, Some(act.stepId));
    var a, b := [AppendEvent(e)], [InsertStepRun(StepRecord(ActivatedRun(act), None))];
    OneNote(v, flow, r, e);
    YieldsShows(v, a, flow, Noted(r, e));
    OneInsert(Flushed(v, a), flow, Noted(r, e), b[0].step);
    Then(v, a, b, flow, WithSteps(Noted(r, e), r.state.steps[act.stepId := ActivatedRun(act)]));
    assert a + b == ActivationWrites(act);
  }

  /** A list of activations, one after the other. */
  lemma {:induction false} ActivationsYield(v: RunView, flow: Flow, r: Run, acts: seq<StepActivation>)
    requires Shows(v, flow, r) && NextAttempts(flow, r.state.steps, acts)
    ensures Yields(v, AllActivationWrites(acts), flow,
                   Run(r.state.(steps := Overlay(r.state.steps, acts)), r.phase, r.trail + ActNotes(acts)))
  {
    if acts == [] {
      assert r.trail + [] == r.trail;
      YieldsNothing(v, flow, r);
    } else {
      hide *;
      var n := |acts| - 1;
      NextAttemptsPart(flow, r.state.steps, acts, n);
      ActivationsYield(v, flow, r, acts[..n]);
      var before := Run(r.state.(steps := Overlay(r.state.steps, acts[..n])), r.phase, r.trail + ActNotes(acts[..n]));
      YieldsShows(v, AllActivationWrites(acts[..n]), flow, before);
      LastActivation(flow, r.state.steps, acts);
      ActivationYields(ApplyBatch(v, AllActivationWrites(acts[..n])).value, flow, before, acts[n]);
      TrailMore(r.trail, ActNotes(acts[..n]), RunEventRecord(StepActivated, Some(acts[n].stepId)));
      Then(v, AllActivationWrites(acts[..n]), ActivationWrites(acts[n]), flow,
           Run(r.state.(steps := Overlay(r.state.steps, acts)), r.phase, r.trail + ActNotes(acts)));
    }
  }

  lemma TrailMore(a: seq<RunEventRecord>, b: seq<RunEventRecord>, e: RunEventRecord)
    ensures a + (b + [e]) == a + b + [e]
  {
  }

  /** The last of a list of activations, on top of the others. */
  lemma LastActivation(flow: Flow, steps: Steps, acts: seq<StepActivation>)
    requires acts != [] && NextAttempts(flow, steps, acts)
    ensures var n := |acts| - 1;
            && Overlay(steps, acts) == Overlay(steps, acts[..n])[acts[n].stepId := ActivatedRun(acts[n])]
            && ActNotes(acts) == ActNotes(acts[..n]) + [RunEventRecord(StepActivated, Some(acts[n].stepId))]
            && AllActivationWrites(acts) == AllActivationWrites(acts[..n]) + ActivationWrites(acts[n])
            && Follows(Overlay(steps, acts[..n]), ActivatedRun(acts[n]))
  {
    var n := |acts| - 1;
    NextAttemptsPart(flow, steps, acts, n);
    OverlayAt(flow, steps, acts[..n]);
  }

  lemma EndYields(v: RunView, flow: Flow, r: Run, phase: RunPhase)
    requires Shows(v, flow, r) && phase != RunPhase.Running
    ensures Yields(v, EndWrites(phase), flow,
                   Run(r.state.(cancelled := r.state.cancelled || phase == RunPhase.Cancelled), phase,
                       r.trail + EndNotes(Some(phase))))
  {
    hide Yields, Shows;
    var e := RunEventRecord(EndType(phase), None);
    var a, c := [SetRunPhase(phase)], [AppendEvent(e)];
    OnePhase(v, flow, r, phase);
    var r1 := r.(phase := phase);
    YieldsShows(v, a, flow, r1);
    if phase == RunPhase.Cancelled {
      var b := [SetRunCancelled];
      var v1 := Flushed(v, a);
      OnePhase(v1, flow, r1, phase);
      var r2 := r1.(state := r1.state.(cancelled := true));
      Then(v, a, b, flow, r2);
      YieldsShows(v, a + b, flow, r2);
      OneNote(Flushed(v, a + b), flow, r2, e);
      Then(v, a + b, c, flow, Noted(r2, e));
    } else {
      OneNote(Flushed(v, a), flow, r1, e);
      Then(v, a, c, flow, Noted(r1, e));
      assert a + [] + c == a + c;
    }
  }

  // ----- early flushes ------------------------------------------------------------------

  /** The batches of a list of activations: each flushed on its own, the first together with
      what was pending. */
  function ActBatches(acts: seq<StepActivation>, pending: seq<Mutation>): seq<seq<Mutation>> {
    if acts == [] then [] else [pending + ActivationWrites(acts[0])] + ActBatches(acts[1..], [])
  }

  lemma {:induction false} ActivationWritesFront(acts: seq<StepActivation>)
    requires acts != []
    ensures AllActivationWrites(acts) == ActivationWrites(acts[0]) + AllActivationWrites(acts[1..])
  {
    hide ActivationWrites;
    var n := |acts| - 1;
    assert AllActivationWrites(acts) == AllActivationWrites(acts[..n]) + ActivationWrites(acts[n]);
    if n == 0 {
      assert acts[..0] == [] && acts[1..] == [];
      assert AllActivationWrites([]) == [];
    } else {
      ActivationWritesFront(acts[..n]);
      assert acts[..n][1..] == acts[1..][..n - 1] && acts[1..][n - 1] == acts[n];
      assert AllActivationWrites(acts[1..]) == AllActivationWrites(acts[1..][..n - 1]) + ActivationWrites(acts[n]);
    }
  }

  /** Flushing at every activation leaves the record and the event sequence that one single
      batch of all the writes would have left. */
  lemma {:induction false} EarlyFlushesAddUp(v: RunView, acts: seq<StepActivation>, pending: seq<Mutation>)
    requires acts != [] && ApplyBatch(v, pending + AllActivationWrites(acts)).Ok?
    ensures ApplyBatches(v, ActBatches(acts, pending)) == ApplyBatch(v, pending + AllActivationWrites(acts)).value
    decreases |acts|
  {
    ActivationWritesFront(acts);
    var first, rest := pending + ActivationWrites(acts[0]), acts[1..];
    assert pending + AllActivationWrites(acts) == first + AllActivationWrites(rest);
    BatchSplits(v, first, AllActivationWrites(rest));
    var next := ApplyBatch(v, first).value;
    var batches := ActBatches(acts, pending);
    assert batches[0] == first && batches[1..] == ActBatches(rest, []);
    if rest == [] {
      NoBatches(next);
    } else {
      assert [] + AllActivationWrites(rest) == AllActivationWrites(rest);
      EarlyFlushesAddUp(next, rest, []);
    }
  }

  lemma {:induction false} ActBatchesTake(acts: seq<StepActivation>, pending: seq<Mutation>, k: nat)
    requires k <= |acts|
    ensures |ActBatches(acts, pending)| == |acts|
    ensures ActBatches(acts, pending)[..k] == ActBatches(acts[..k], pending)
    decreases |acts|
  {
    if acts != [] {
      ActBatchesTake(acts[1..], [], if k > 0 then k - 1 else 0);
      if k > 0 {
        assert acts[..k][1..] == acts[1..][..k - 1];
        assert ActBatches(acts, pending)[..k] == [pending + ActivationWrites(acts[0])]
            + ActBatches(acts[1..], [])[..k - 1];
      }
    }
  }

  // ----- the plan of an effect ----------------------------------------------------------

  function MarkWrites(rec: RunRecord, event: Event, mark: Option<Mark>): seq<Mutation> {
    match mark
    case None => []
    case Some(m) =>
      match LatestRow(rec, m.stepId)
      case None => []
      case Some(row) =>
        [SetStepStatus(m.stepId, row.run.attempt, m.status)] + EventData(event, m.stepId, row.run.attempt)
        + StatusNote(m.stepId, m.status)
        + (if m.status.WaitingApproval? then [SetStepStatus(m.stepId, row.run.attempt, WaitingApproval)] else [])
  }

  function HeadWrites(rec: RunRecord, event: Event, e: Effect): seq<Mutation> {
    MarkWrites(rec, event, e.mark) + CancelAll(rec, e.cancels)
  }

  function EndingWrites(finish: Option<RunPhase>): seq<Mutation> {
    if finish.Some? && finish.value != RunPhase.Running then EndWrites(finish.value) else []
  }

  lemma PlanOne(rec: RunRecord, event: Event, cmd: Command, rest: seq<Command>, pending: seq<Mutation>)
    requires !cmd.ActivateSteps? && Writes(rec, event, cmd).Ok?
    ensures Plan(rec, event, [cmd] + rest, pending) == Plan(rec, event, rest, pending + Writes(rec, event, cmd).value)
  {
    assert ([cmd] + rest)[1..] == rest;
  }

  lemma {:induction false} PlanSkips(rec: RunRecord, event: Event, ids: seq<StepId>, rest: seq<Command>,
                                     pending: seq<Mutation>)
    requires forall id :: id in ids ==> LatestRow(rec, id).None?
    ensures Plan(rec, event, SkipCommands(ids) + rest, pending) == Plan(rec, event, rest, pending)
    decreases |ids|
  {
    if ids == [] {
      assert [] + rest == rest;
    } else {
      var n := |ids| - 1;
      var cmd := MarkStepStatus(ids[n], Skipped);
      assert SkipCommands(ids) + rest == SkipCommands(ids[..n]) + ([cmd] + rest);
      PlanSkips(rec, event, ids[..n], [cmd] + rest, pending);
      PlanOne(rec, event, cmd, rest, pending);
      assert pending + [] == pending;
    }
  }

  lemma PlanHead(rec: RunRecord, event: Event, e: Effect, rest: seq<Command>)
    requires e.mark.Some? ==> LatestRow(rec, e.mark.value.stepId).Some?
    ensures Plan(rec, event, MarkCommands(e.mark) + CancelCommands(e.cancels) + rest, [])
            == Plan(rec, event, rest, HeadWrites(rec, event, e))
  {
    hide Plan, EventData, StatusNote, CancelAll;
    var after := CancelCommands(e.cancels) + rest;
    var marked := MarkWrites(rec, event, e.mark);
    assert MarkCommands(e.mark) + CancelCommands(e.cancels) + rest == MarkCommands(e.mark) + after;
    assert Plan(rec, event, MarkCommands(e.mark) + after, []) == Plan(rec, event, after, marked) by {
      match e.mark {
        case None => assert [] + after == after;
        case Some(m) =>
          var cmd := MarkStepStatus(m.stepId, m.status);
          var ms := Writes(rec, event, cmd).value;
          assert [] + ms == ms;
          if m.status.WaitingApproval? {
            var wait := WaitApproval(m.stepId);
            assert MarkCommands(e.mark) + after == [cmd] + ([wait] + after);
            PlanOne(rec, event, cmd, [wait] + after, []);
            PlanOne(rec, event, wait, after, ms);
          } else {
            assert MarkCommands(e.mark) + after == [cmd] + after;
            assert ms + [] == ms;
            PlanOne(rec, event, cmd, after, []);
          }
      }
    }
    if e.cancels == [] {
      NothingCancelled(rec);
      assert [] + rest == rest && marked + [] == marked;
    } else {
      PlanOne(rec, event, CancelSteps(e.cancels), rest, marked);
    }
  }

  lemma NothingCancelled(rec: RunRecord)
    ensures CancelAll(rec, []) == []
  {
  }

  lemma PlanEnding(rec: RunRecord, event: Event, e: Effect, pending: seq<Mutation>)
    requires forall id :: id in e.skips ==> LatestRow(rec, id).None?
    requires e.finish != Some(RunPhase.Running)
    ensures var all := pending + EndingWrites(e.finish);
            Plan(rec, event, SkipCommands(e.skips) + FinishCommands(e.finish), pending).batches ==
                if all == [] then [] else [all]
  {
    PlanSkips(rec, event, e.skips, FinishCommands(e.finish), pending);
    if e.finish.Some? {
      var cmd := MarkRunTerminal(e.finish.value);
      assert [cmd] + [] == [cmd];
      PlanOne(rec, event, cmd, [], pending);
    } else {
      assert pending + [] == pending;
    }
    var all := pending + EndingWrites(e.finish);
    assert [all] + [] == [all];
  }

  /** How many activations there are before the first whose request cannot be built. */
  function Built(rec: RunRecord, acts: seq<StepActivation>): (n: nat)
    ensures n <= |acts| && (n == |acts| <==> AllBuild(rec, acts))
  {
    hide ActivationBuilds;
    if acts == [] || !ActivationBuilds(rec, acts[0]) then 0
    else
      assert acts == [acts[0]] + acts[1..];
      1 + Built(rec, acts[1..])
  }

  /** Activations flush one by one until a request cannot be built. */
  lemma {:induction false} PlanActivations(rec: RunRecord, event: Event, acts: seq<StepActivation>,
                                           pending: seq<Mutation>) returns (n: nat)
    requires acts == [] ==> pending == []
    ensures n == Built(rec, acts)
    ensures Plan(rec, event, ActivationCommands(acts), pending).batches == ActBatches(acts[..n], pending)
    decreases |acts|
  {
    hide ActivationBuilds, ActivationWrites, AllActivationWrites;
    if acts == [] {
      return 0;
    }
    PlanActivation(rec, event, acts, pending);
    n := Built(rec, acts);
    if n > 0 {
      var m := PlanActivations(rec, event, acts[1..], []);
      assert acts[..n][1..] == acts[1..][..m];
    }
  }

  lemma PlanActivation(rec: RunRecord, event: Event, acts: seq<StepActivation>, pending: seq<Mutation>)
    requires acts != []
    ensures Plan(rec, event, ActivationCommands(acts), pending).batches ==
            if ActivationBuilds(rec, acts[0])
            then [pending + ActivationWrites(acts[0])] + Plan(rec, event, ActivationCommands(acts[1..]), []).batches
            else []
  {
    hide ActivationBuilds;
    var cmds, one := ActivationCommands(acts), [acts[0]];
    assert cmds[0] == ActivateSteps(one) && cmds[1..] == ActivationCommands(acts[1..]);
    assert one[..0] == [] && AllActivationWrites([]) == [] && AllActivationWrites(one) == ActivationWrites(acts[0]);
    assert one[0] in one;
  }

  // ----- the theorem --------------------------------------------------------------------

  /** The run once the event's own writes are in, before any activation or end. */
  function AfterHead(r: Run, e: Effect): Run {
    Run(r.state.(steps := e.next.steps), r.phase, r.trail + MarkNotes(e.mark))
  }

  lemma LatestShown(v: RunView, flow: Flow, r: Run)
    requires Shows(v, flow, r)
    ensures forall id :: LatestRow(v.rec, id).Some? <==> id in r.state.steps
    ensures forall id :: id in r.state.steps ==>
              LatestRow(v.rec, id).value.run == r.state.steps[id] && r.state.steps[id].stepId == id
  {
    hide Sequenced, Contiguous, RowsWithin;
    ShownState(v, flow, r);
    assert Runs(Latest(v.rec.steps)) == r.state.steps;
  }

  lemma MarkPartYields(v: RunView, flow: Flow, r: Run, event: Event, e: Effect)
    requires Shows(v, flow, r) && NextIsMarked(r.state, event, e)
    ensures Yields(v, MarkWrites(v.rec, event, e.mark), flow,
                   Run(r.state.(steps := MarkedSteps(r.state.steps, event, e.mark)), r.phase,
                       r.trail + MarkNotes(e.mark)))
  {
    hide Yields, Shows;
    LatestShown(v, flow, r);
    match e.mark {
      case None =>
        assert r.trail + [] == r.trail;
        assert r.state.(steps := r.state.steps) == r.state;
        YieldsNothing(v, flow, r);
      case Some(m) =>
        var n := r.state.steps[m.stepId].attempt;
        var ms := [SetStepStatus(m.stepId, n, m.status)] + EventData(event, m.stepId, n)
            + StatusNote(m.stepId, m.status);
        var r1 := Run(r.state.(steps := MarkedSteps(r.state.steps, event, e.mark)), r.phase,
                      r.trail + MarkNotes(e.mark));
        MarkYields(v, flow, r, event, m.stepId, m.status);
        if m.status.WaitingApproval? {
          YieldsShows(v, ms, flow, r1);
          WaitYields(Flushed(v, ms), flow, r1, m.stepId);
          Then(v, ms, [SetStepStatus(m.stepId, n, WaitingApproval)], flow, r1);
        } else {
          assert ms + [] == ms;
        }
    }
  }

  lemma HeadYields(v: RunView, flow: Flow, r: Run, event: Event, e: Effect)
    requires Shows(v, flow, r) && NextIsMarked(r.state, event, e)
    ensures Yields(v, HeadWrites(v.rec, event, e), flow, AfterHead(r, e))
  {
    var marked := Run(r.state.(steps := MarkedSteps(r.state.steps, event, e.mark)), r.phase,
                      r.trail + MarkNotes(e.mark));
    var ms := MarkWrites(v.rec, event, e.mark);
    MarkPartYields(v, flow, r, event, e);
    ShownState(v, flow, r);
    hide Yields, Shows, MarkWrites;
    YieldsShows(v, ms, flow, marked);
    CancelYields(Flushed(v, ms), flow, marked, v.rec, r.state, e.cancels);
    Then(v, ms, CancelAll(v.rec, e.cancels), flow, AfterHead(r, e));
  }

  /** Everything an effect writes, as one batch up to its `j`-th activation. */
  function AllWrites(rec: RunRecord, event: Event, e: Effect, j: nat): seq<Mutation>
    requires j <= |e.activations|
  {
    HeadWrites(rec, event, e) + AllActivationWrites(e.activations[..j]) + EndingWrites(e.finish)
  }

  lemma ActivatedYield(v: RunView, flow: Flow, r: Run, event: Event, e: Effect, j: nat)
    requires Shows(v, flow, r) && NextIsMarked(r.state, event, e)
    requires NextAttempts(flow, e.next.steps, e.activations) && j <= |e.activations|
    ensures Yields(v, HeadWrites(v.rec, event, e) + AllActivationWrites(e.activations[..j]), flow,
                   After(r, e.(finish := None), j))
  {
    assert forall a :: a in e.activations[..j] ==> a in e.activations;
    hide Yields, Shows, HeadWrites, NextIsMarked;
    HeadYields(v, flow, r, event, e);
    var head := HeadWrites(v.rec, event, e);
    var r1, r2 := AfterHead(r, e), After(r, e.(finish := None), j);
    YieldsShows(v, head, flow, r1);
    ActivationsYield(Flushed(v, head), flow, r1, e.activations[..j]);
    assert r2.trail == r1.trail + ActNotes(e.activations[..j]);
    Then(v, head, AllActivationWrites(e.activations[..j]), flow, r2);
  }

  lemma AllWritesYield(v: RunView, flow: Flow, r: Run, event: Event, e: Effect, j: nat)
    requires Shows(v, flow, r) && NextIsMarked(r.state, event, e)
    requires NextAttempts(flow, e.next.steps, e.activations) && j <= |e.activations|
    requires e.finish != Some(RunPhase.Running)
    ensures Yields(v, AllWrites(v.rec, event, e, j), flow, After(r, e, j))
  {
    hide Yields, Shows, HeadWrites, NextIsMarked, NextAttempts, AllActivationWrites, Overlay, ActNotes, MarkNotes;
    ActivatedYield(v, flow, r, event, e, j);
    var sofar := HeadWrites(v.rec, event, e) + AllActivationWrites(e.activations[..j]);
    var r2 := After(r, e.(finish := None), j);
    YieldsShows(v, sofar, flow, r2);
    if e.finish.Some? {
      EndYields(Flushed(v, sofar), flow, r2, e.finish.value);
      assert r2.trail == r.trail + MarkNotes(e.mark) + ActNotes(e.activations[..j]);
      assert After(r, e, j) == Run(r2.state.(cancelled := r2.state.cancelled || e.finish.value == RunPhase.Cancelled),
                                   e.finish.value, r2.trail + EndNotes(e.finish));
      Then(v, sofar, EndingWrites(e.finish), flow, After(r, e, j));
    } else {
      assert sofar + [] == sofar;
    }
  }

  lemma DecidedPlan(v: RunView, flow: Flow, r: Run, event: Event, e: Effect)
    requires Shows(v, flow, r) && r.phase == RunPhase.Running && Transition(flow, r.state, event) == Ok(e)
    ensures BatchesFor(v, event) == Plan(v.rec, event, CommandsOf(e), []).batches
  {
    hide Plan, Represents, Transition, CommandsOf;
    ShownState(v, flow, r);
  }

  /** The batches of an effect that activates nothing. */
  lemma PlanQuiet(rec: RunRecord, event: Event, e: Effect)
    requires e.mark.Some? ==> LatestRow(rec, e.mark.value.stepId).Some?
    requires forall id :: id in e.skips ==> LatestRow(rec, id).None?
    requires e.finish != Some(RunPhase.Running) && e.activations == []
    ensures var all := HeadWrites(rec, event, e) + EndingWrites(e.finish);
            Plan(rec, event, CommandsOf(e), []).batches == if all == [] then [] else [all]
  {
    hide Plan, HeadWrites, EndingWrites, MarkCommands, CancelCommands, SkipCommands, FinishCommands, LatestRow;
    var rest := SkipCommands(e.skips) + FinishCommands(e.finish);
    assert MarkCommands(e.mark) + CancelCommands(e.cancels) + [] == MarkCommands(e.mark) + CancelCommands(e.cancels);
    PlanHead(rec, event, e, rest);
    PlanEnding(rec, event, e, HeadWrites(rec, event, e));
  }

  /** The batches of an effect that activates something. */
  lemma PlanActing(rec: RunRecord, event: Event, e: Effect) returns (n: nat)
    requires e.mark.Some? ==> LatestRow(rec, e.mark.value.stepId).Some?
    requires e.skips == [] && e.finish.None? && e.activations != []
    ensures n == Built(rec, e.activations)
    ensures Plan(rec, event, CommandsOf(e), []).batches == ActBatches(e.activations[..n], HeadWrites(rec, event, e))
  {
    NoSkips();
    hide Plan, HeadWrites, MarkCommands, CancelCommands, ActivationCommands, SkipCommands, AllBuild, ActBatches,
         LatestRow, Built;
    var head, acts := MarkCommands(e.mark) + CancelCommands(e.cancels), ActivationCommands(e.activations);
    assert CommandsOf(e) == head + acts + (SkipCommands(e.skips) + FinishCommands(e.finish));
    assert SkipCommands(e.skips) + FinishCommands(e.finish) == [];
    assert head + acts + [] == head + acts;
    PlanHead(rec, event, e, acts);
    n := PlanActivations(rec, event, e.activations, HeadWrites(rec, event, e));
  }

  lemma EffectRows(v: RunView, flow: Flow, r: Run, event: Event, e: Effect)
    requires Shows(v, flow, r) && NextIsMarked(r.state, event, e) && Ends(flow, event, e)
    ensures e.mark.Some? ==> LatestRow(v.rec, e.mark.value.stepId).Some?
    ensures forall id :: id in e.skips ==> LatestRow(v.rec, id).None?
    ensures e.finish != Some(RunPhase.Running)
    ensures e.activations != [] ==> e.skips == [] && e.finish.None?
  {
    hide Shows, LatestRow, AllTerminal, Phase, Unreached;
    LatestShown(v, flow, r);
    UnreachedAbsent(flow.steps, e.next);
  }

  lemma {:induction false} UnreachedAbsent(steps: seq<Step>, state: RunState)
    ensures forall id :: id in Unreached(steps, state) ==> id !in state.steps
  {
    if steps != [] {
      UnreachedAbsent(steps[..|steps| - 1], state);
    }
  }

  /** The shell refines the core. Submitting an event and stopping after any number of
      flushed batches leaves either what was there, or exactly the state the engine had in
      mind with one Running row for each activation that got through: one per flushed batch, up
      to the first activation whose request cannot be built. */
  lemma SubmitRefines(v: RunView, flow: Flow, r: Run, event: Event, e: Effect, flushed: nat) returns (j: Option<nat>)
    requires Shows(v, flow, r) && r.phase == RunPhase.Running
    requires Enabled(r.state, event) && NoVerdictYet(r.state.steps) && Transition(flow, r.state, event) == Ok(e)
    ensures j.None? ==> SubmittedUpTo(v, event, flushed) == v
    ensures j.Some? ==> j.value <= |e.activations| && (e.activations != [] ==> j.value > 0)
    ensures j.Some? ==> Shows(SubmittedUpTo(v, event, flushed), flow, After(r, e, j.value))
    ensures e.activations != [] ==>
              var n := Built(v.rec, e.activations);
              j == if flushed == 0 || n == 0 then None else Some(if flushed < n then flushed else n)
    ensures e.activations == [] && flushed >= |BatchesFor(v, event)| ==> j == Some(0)
  {
    hide *;
    EffectShape(flow, r.state, event, e);
    EffectNextAttempts(flow, r.state, event, e);
    EffectRows(v, flow, r, event, e);
    DecidedPlan(v, flow, r, event, e);
    if e.activations == [] {
      PlanQuiet(v.rec, event, e);
      j := QuietRefines(v, flow, r, event, e, flushed);
    } else {
      var n := PlanActing(v.rec, event, e);
      j := ActingRefines(v, flow, r, event, e, n, flushed);
    }
  }

  lemma QuietRefines(v: RunView, flow: Flow, r: Run, event: Event, e: Effect, flushed: nat) returns (j: Option<nat>)
    requires Shows(v, flow, r) && NextIsMarked(r.state, event, e) && NextAttempts(flow, e.next.steps, e.activations)
    requires e.finish != Some(RunPhase.Running) && e.activations == []
    requires var all := HeadWrites(v.rec, event, e) + EndingWrites(e.finish);
             BatchesFor(v, event) == if all == [] then [] else [all]
    ensures j.None? ==> SubmittedUpTo(v, event, flushed) == v
    ensures j.Some? ==> j.value == 0 && Shows(SubmittedUpTo(v, event, flushed), flow, After(r, e, 0))
    ensures flushed >= |BatchesFor(v, event)| ==> j == Some(0)
  {
    hide Shows, NextIsMarked, NextAttempts, BatchesFor, HeadWrites, EndingWrites, After, ApplyBatch, ApplyBatches;
    AllWritesYield(v, flow, r, event, e, 0);
    var all := HeadWrites(v.rec, event, e) + EndingWrites(e.finish);
    assert HeadWrites(v.rec, event, e) + AllActivationWrites([]) == HeadWrites(v.rec, event, e);
    assert AllWrites(v.rec, event, e, 0) == all;
    NoBatches(v);
    var batches := BatchesFor(v, event);
    if all == [] {
      assert batches[..0] == [];
      EmptyBatch(v);
      j := Some(0);
    } else if flushed == 0 {
      assert batches[..0] == [];
      j := None;
    } else {
      SingleFlush(v, all);
      assert batches[..1] == [all];
      j := Some(0);
    }
  }

  lemma EmptyBatch(v: RunView)
    ensures ApplyBatch(v, []) == Ok(v)
  {
  }

  lemma ActingRefines(v: RunView, flow: Flow, r: Run, event: Event, e: Effect, n: nat, flushed: nat)
      returns (j: Option<nat>)
    requires Shows(v, flow, r) && NextIsMarked(r.state, event, e) && NextAttempts(flow, e.next.steps, e.activations)
    requires e.finish.None? && n <= |e.activations|
    requires BatchesFor(v, event) == ActBatches(e.activations[..n], HeadWrites(v.rec, event, e))
    ensures |BatchesFor(v, event)| == n
    ensures j.None? ==> SubmittedUpTo(v, event, flushed) == v
    ensures j.Some? ==> 0 < j.value <= n && Shows(SubmittedUpTo(v, event, flushed), flow, After(r, e, j.value))
    ensures j == if flushed == 0 || n == 0 then None else Some(if flushed < n then flushed else n)
  {
    hide *;
    var k := if flushed < n then flushed else n;
    var head := HeadWrites(v.rec, event, e);
    if k > 0 { PrefixFlushed(v, flow, r, event, e, k); }
    ActBatchesTake(e.activations[..n], head, n);
    ActBatchesTake(e.activations[..n], head, k);
    UpTo(v, event, flushed);
    assert e.activations[..n][..k] == e.activations[..k];
    if k == 0 {
      assert BatchesFor(v, event)[..0] == [];
      NoBatches(v);
      j := None;
    } else {
      j := Some(k);
    }
  }

  lemma UpTo(v: RunView, event: Event, flushed: nat)
    ensures var batches := BatchesFor(v, event);
            SubmittedUpTo(v, event, flushed)
                == ApplyBatches(v, batches[..if flushed < |batches| then flushed else |batches|])
  {
  }

  lemma PrefixFlushed(v: RunView, flow: Flow, r: Run, event: Event, e: Effect, k: nat)
    requires Shows(v, flow, r) && NextIsMarked(r.state, event, e) && NextAttempts(flow, e.next.steps, e.activations)
    requires e.finish.None? && 0 < k <= |e.activations|
    ensures Shows(ApplyBatches(v, ActBatches(e.activations[..k], HeadWrites(v.rec, event, e))), flow, After(r, e, k))
  {
    hide Shows, NextIsMarked, NextAttempts, HeadWrites, After, ApplyBatch, ApplyBatches, ActBatches,
         AllActivationWrites;
    AllWritesYield(v, flow, r, event, e, k);
    var head, acts := HeadWrites(v.rec, event, e), AllActivationWrites(e.activations[..k]);
    assert AllWrites(v.rec, event, e, k) == head + acts + [] == head + acts;
    EarlyFlushesAddUp(v, e.activations[..k], head);
  }

  lemma SingleFlush(v: RunView, ms: seq<Mutation>)
    requires ApplyBatch(v, ms).Ok?
    ensures ApplyBatches(v, [ms]) == ApplyBatch(v, ms).value
  {
    assert [ms][1..] == [];
    NoBatches(ApplyBatch(v, ms).value);
  }
}
