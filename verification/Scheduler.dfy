/** The shell around the engine: commands become mutation batches, flushed to the store at
    every activation. `Plan` says which batches a command list amounts to; the class runs
    them against a store. */
module Scheduler {
  import opened Wrappers
  import opened FlowTypes
  import opened Template
  import opened RunTypes
  import opened Engine
  import opened Ports
  import opened Store

  datatype SchedulerError = StoreFailure(error: StoreError) | EngineFailure(id: StepId) | Unreachable

  // ----- what one command writes --------------------------------------------------------

  function LatestRow(rec: RunRecord, id: StepId): Option<StepRecord> {
    var latest := Latest(rec.steps);
    if id in latest then Some(latest[id]) else None
  }

  function Note(eventType: RunEventType, id: StepId): Mutation {
    AppendEvent(RunEventRecord(eventType, Some(id)))
  }

  /** `add_event_data`: what the triggering event itself leaves on its step's row. */
  function EventData(event: Event, id: StepId, attempt: nat): seq<Mutation> {
    match event
    case StepCompleted(ev, output) => if ev == id then [SetStepOutput(id, attempt, output)] else []
    case StepFailed(ev, reason) => if ev == id then [SetStepFailure(id, attempt, reason)] else []
    case StepApproved(ev, comment) => if ev == id then [SetApproval(id, attempt, Approved, comment, None)] else []
    case StepRejected(ev, feedback) =>
      if ev == id then [SetApproval(id, attempt, Rejected, None, Some(feedback))] else []
    case _ => []
  }

  function StatusNote(id: StepId, status: StepStatus): seq<Mutation> {
    match status
    case WaitingApproval => [Note(StepWaitingApproval, id)]
    case Completed => [Note(RunEventType.StepCompleted, id)]
    case Failed => [Note(RunEventType.StepFailed, id)]
    case FailedRejected => [Note(RunEventType.StepFailed, id)]
    case _ => []
  }

  function CancelOne(rec: RunRecord, id: StepId): seq<Mutation> {
    match LatestRow(rec, id)
    case Some(row) =>
      if row.run.status.IsActive() then [SetStepStatus(id, row.run.attempt, StepStatus.Cancelled)] else []
    case None => []
  }

  function CancelAll(rec: RunRecord, ids: seq<StepId>): seq<Mutation> {
    if ids == [] then [] else CancelAll(rec, ids[..|ids| - 1]) + CancelOne(rec, ids[|ids| - 1])
  }

  function EndType(phase: RunPhase): RunEventType
    requires phase != RunPhase.Running
  {
    match phase
    case Completed => RunCompleted
    case Failed => RunFailed
    case Cancelled => RunCancelled
  }

  function EndWrites(phase: RunPhase): seq<Mutation>
    requires phase != RunPhase.Running
  {
    [SetRunPhase(phase)] + (if phase == RunPhase.Cancelled then [SetRunCancelled] else [])
    + [AppendEvent(RunEventRecord(EndType(phase), None))]
  }

  /** The mutations of a command that activates nothing. */
  function Writes(rec: RunRecord, event: Event, cmd: Command): Result<seq<Mutation>, SchedulerError>
    requires !cmd.ActivateSteps?
  {
    match cmd
    case WaitApproval(id) =>
      (match LatestRow(rec, id)
       case None => Err(EngineFailure(id))
       case Some(row) => Ok([SetStepStatus(id, row.run.attempt, WaitingApproval)]))
    case CancelSteps(ids) => Ok(CancelAll(rec, ids))
    case MarkStepStatus(id, status) =>
      (match LatestRow(rec, id)
       case None => if status.Skipped? then Ok([]) else Err(EngineFailure(id))
       case Some(row) =>
         Ok([SetStepStatus(id, row.run.attempt, status)] + EventData(event, id, row.run.attempt)
            + StatusNote(id, status)))
    case MarkRunTerminal(phase) => if phase == RunPhase.Running then Err(Unreachable) else Ok(EndWrites(phase))
  }

  // ----- activation ---------------------------------------------------------------------

  function With(args: map<string, Value>, key: string, text: Option<string>): map<string, Value> {
    if text.Some? then args[key := JString(text.value)] else args
  }

  function Default(args: map<string, Value>, key: string, text: Option<string>): map<string, Value> {
    if key in args then args else With(args, key, text)
  }

  /** The arguments of a job request, before their templates are resolved: the step's own, the
      extra ones over them, and the flow's defaults where nothing is given. */
  function RequestArgs(flow: Flow, step: Step, input: string): map<string, Value> {
    var cli := map["cli" := JString(step.with.cli)];
    var own := With(With(cli, "role", step.with.role)["input" := JString(input)], "output", step.with.output);
    Default(Default(own + step.with.extra, "provider", flow.defaults.provider), "model", flow.defaults.model)
  }

  /** Whether `build_step_request` succeeds: every string of the request resolves, the
      already resolved input among them. */
  predicate RequestBuilds(flow: Flow, step: Step, ctx: TemplateContext, input: string) {
    var args := RequestArgs(flow, step, input);
    forall k | k in args :: ResolvesValue(args[k], ctx)
  }

  predicate ActivationBuilds(rec: RunRecord, act: StepActivation) {
    var step := rec.definition.StepOf(act.stepId);
    step.Some? && RequestBuilds(rec.definition, step.value, BuildContext(rec.definition, RunStateOf(rec)), act.input)
  }

  /** The row an activation inserts. */
  function ActivatedRun(act: StepActivation): StepRun {
    StepRun(act.stepId, StepStatus.Running, act.attempt, Some(act.input), None, None, None, None, None, None)
  }

  function ActivationWrites(act: StepActivation): seq<Mutation> {
    [Note(StepActivated, act.stepId), InsertStepRun(StepRecord(ActivatedRun(act), None))]
  }

  function AllActivationWrites(acts: seq<StepActivation>): seq<Mutation> {
    if acts == [] then []
    else AllActivationWrites(acts[..|acts| - 1]) + ActivationWrites(acts[|acts| - 1])
  }

  // ----- the plan -----------------------------------------------------------------------

  /** The batches a command list flushes in order, and whether it runs to its end. */
  datatype BatchPlan = BatchPlan(batches: seq<seq<Mutation>>, complete: bool)

  function Flush(pending: seq<Mutation>, rest: BatchPlan): BatchPlan {
    if pending == [] then rest else rest.(batches := [pending] + rest.batches)
  }

  function Plan(rec: RunRecord, event: Event, cmds: seq<Command>, pending: seq<Mutation>): BatchPlan
    decreases |cmds|
  {
    if cmds == [] then Flush(pending, BatchPlan([], true))
    else if cmds[0].ActivateSteps? then
      var acts := cmds[0].activations;
      if forall a | a in acts :: ActivationBuilds(rec, a)
      then Flush(pending + AllActivationWrites(acts), Plan(rec, event, cmds[1..], []))
      else BatchPlan([], false)
    else match Writes(rec, event, cmds[0])
      case Err(_) => BatchPlan([], false)
      case Ok(ms) => Plan(rec, event, cmds[1..], pending + ms)
  }

  // ----- submitting an event ------------------------------------------------------------

  /** The batches an event leads to on a given view; none if the run is over or the engine
      refuses the event. */
  function BatchesFor(v: RunView, event: Event): seq<seq<Mutation>> {
    if v.rec.phase != RunPhase.Running then []
    else match Decide(v.rec.definition, RunStateOf(v.rec), event)
      case Err(_) => []
      case Ok(cmds) => Plan(v.rec, event, cmds, []).batches
  }

  /** `submit`, uninterrupted. */
  function Submitted(v: RunView, event: Event): RunView {
    ApplyBatches(v, BatchesFor(v, event))
  }

  /** `submit`, stopped by a crash once `flushed` batches are in the store. */
  function SubmittedUpTo(v: RunView, event: Event, flushed: nat): RunView {
    var batches := BatchesFor(v, event);
    ApplyBatches(v, batches[..if flushed < |batches| then flushed else |batches|])
  }

  // ----- running it against a store -----------------------------------------------------

  predicate Flushes(v: RunView, ms: seq<Mutation>) {
    ms != [] ==> ApplyBatch(v, ms).Ok?
  }

  function AfterFlush(v: RunView, ms: seq<Mutation>): RunView
    requires Flushes(v, ms)
  {
    if ms == [] then v else ApplyBatch(v, ms).value
  }

  predicate AllBuild(rec: RunRecord, acts: seq<StepActivation>) {
    forall a | a in acts :: ActivationBuilds(rec, a)
  }

  /** Where a view ends up if the rest of a command list is executed from here. */
  function RunRest(v: RunView, rec: RunRecord, event: Event, cmds: seq<Command>, pending: seq<Mutation>): RunView {
    ApplyBatches(v, Plan(rec, event, cmds, pending).batches)
  }

  lemma RestEnd(v: RunView, rec: RunRecord, event: Event, pending: seq<Mutation>)
    ensures RunRest(v, rec, event, [], pending) == if Flushes(v, pending) then AfterFlush(v, pending) else v
  {
    var batches := Plan(rec, event, [], pending).batches;
    if pending != [] {
      assert batches == [pending] && batches[1..] == [];
      match ApplyBatch(v, pending) {
        case Ok(next) => assert ApplyBatches(next, batches[1..]) == next;
        case Err(_) =>
      }
    }
  }

  lemma RestActivate(v: RunView, rec: RunRecord, event: Event, cmds: seq<Command>, pending: seq<Mutation>)
    requires cmds != [] && cmds[0].ActivateSteps?
    ensures var acts := cmds[0].activations;
            var ms := pending + AllActivationWrites(acts);
            RunRest(v, rec, event, cmds, pending) ==
            if AllBuild(rec, acts) && Flushes(v, ms) then RunRest(AfterFlush(v, ms), rec, event, cmds[1..], []) else v
  {
    var ms := pending + AllActivationWrites(cmds[0].activations);
    var rest := Plan(rec, event, cmds[1..], []).batches;
    assert ([ms] + rest)[1..] == rest;
  }

  lemma RestWrites(v: RunView, rec: RunRecord, event: Event, cmds: seq<Command>, pending: seq<Mutation>)
    requires cmds != [] && !cmds[0].ActivateSteps?
    ensures var ms := Writes(rec, event, cmds[0]);
            RunRest(v, rec, event, cmds, pending) ==
            if ms.Ok? then RunRest(v, rec, event, cmds[1..], pending + ms.value) else v
  {
  }

  /** The writes of a list of activations, or the step whose request cannot be built. */
  method CollectActivations(rec: RunRecord, acts: seq<StepActivation>) returns (r: Result<seq<Mutation>, StepId>)
    ensures r.Ok? <==> AllBuild(rec, acts)
    ensures r.Ok? ==> r.value == AllActivationWrites(acts)
  {
    hide ActivationBuilds, ActivationWrites;
    var ms: seq<Mutation> := [];
    for i := 0 to |acts|
      invariant forall k :: 0 <= k < i ==> ActivationBuilds(rec, acts[k])
      invariant ms == AllActivationWrites(acts[..i])
    {
      if !ActivationBuilds(rec, acts[i]) { return Err(acts[i].stepId); }
      assert acts[..i + 1][..i] == acts[..i];
      ms := ms + ActivationWrites(acts[i]);
    }
    assert acts[..|acts|] == acts;
    r := Ok(ms);
  }

  class Shell {
    const store: InMemoryStateStore

    constructor (store: InMemoryStateStore)
      ensures this.store == store
    {
      this.store := store;
    }

    method FlushTo(id: RunId, ms: seq<Mutation>) returns (r: Result<(), SchedulerError>)
      requires id in store.runs
      modifies store`runs, store`events
      ensures store.OnlyRun(id)
      ensures r.Ok? <==> Flushes(old(store.View(id)), ms)
      ensures store.View(id) == if r.Ok? then AfterFlush(old(store.View(id)), ms) else old(store.View(id))
    {
      if ms == [] { return Ok(()); }
      var applied := store.Apply(id, ms);
      r := if applied.Ok? then Ok(()) else Err(StoreFailure(applied.error));
    }

    /** `execute_commands`: collect mutations, flushing early at each activation. */
    method ExecuteCommands(id: RunId, rec: RunRecord, event: Event, cmds: seq<Command>)
      returns (r: Result<(), SchedulerError>)
      requires id in store.runs
      modifies store`runs, store`events
      ensures store.OnlyRun(id)
      ensures store.View(id) == RunRest(old(store.View(id)), rec, event, cmds, [])
    {
      hide RunRest, Writes, AllActivationWrites, Flushes, AfterFlush, AllBuild;
      ghost var goal := RunRest(store.View(id), rec, event, cmds, []);
      var pending: seq<Mutation> := [];
      var i := 0;
      assert cmds[0..] == cmds;
      while i < |cmds|
        invariant 0 <= i <= |cmds|
        invariant store.OnlyRun(id)
        invariant goal == RunRest(store.View(id), rec, event, cmds[i..], pending)
      {
        assert cmds[i..][1..] == cmds[i + 1..];
        if cmds[i].ActivateSteps? {
          RestActivate(store.View(id), rec, event, cmds[i..], pending);
          var ms := CollectActivations(rec, cmds[i].activations);
          if ms.Err? { return Err(EngineFailure(ms.error)); }
          r := FlushTo(id, pending + ms.value);
          if r.Err? { return; }
          pending := [];
        } else {
          RestWrites(store.View(id), rec, event, cmds[i..], pending);
          var ms := Writes(rec, event, cmds[i]);
          if ms.Err? { return Err(ms.error); }
          pending := pending + ms.value;
        }
        i := i + 1;
      }
      assert cmds[i..] == [];
      RestEnd(store.View(id), rec, event, pending);
      r := FlushTo(id, pending);
    }

    /** `submit`, under the run's lock: load, decide, execute. */
    method Submit(id: RunId, event: Event) returns (r: Result<(), SchedulerError>)
      requires id in store.runs
      modifies store`runs, store`events
      ensures store.OnlyRun(id)
      ensures store.View(id) == Submitted(old(store.View(id)), event)
    {
      hide Plan, Decide, ApplyBatches;
      var loaded := store.LoadRun(id);
      var rec := loaded.value;
      if rec.phase != RunPhase.Running { NoBatches(store.View(id)); return Ok(()); }
      var decided := RunDecide(rec.definition, RunStateOf(rec), event);
      if decided.Err? {
        NoBatches(store.View(id));
        return Err(EngineFailure(if decided.error.UnknownStep? then decided.error.id else decided.error.step));
      }
      r := ExecuteCommands(id, rec, event, decided.value);
    }
  }

  lemma NoBatches(v: RunView)
    ensures ApplyBatches(v, []) == v
  {
  }
}
