/** Persisted records and the single-run writes a store applies to them. */
module Ports {
  import opened Wrappers
  import opened Ordering
  import opened FlowTypes
  import opened RunTypes

  type RunId = string

  datatype StepRecord = StepRecord(run: StepRun, jobId: Option<string>)

  datatype RunRecord = RunRecord(
    runId: RunId,
    definition: Flow,
    inputs: Value,
    trigger: Value,
    phase: RunPhase,
    cancelled: bool,
    idempotencyKey: Option<string>,
    steps: seq<StepRecord>)

  datatype RunEventType =
    | RunStarted
    | StepActivated
    | StepStarted
    | StepCompleted
    | StepFailed
    | StepWaitingApproval
    | ApprovalResolved
    | RunCompleted
    | RunFailed
    | RunCancelled

  datatype RunEventRecord = RunEventRecord(eventType: RunEventType, stepId: Option<StepId>)

  datatype StoredRunEvent = StoredRunEvent(sequence: nat, record: RunEventRecord)

  datatype Mutation =
    | InsertStepRun(step: StepRecord)
    | SetStepStatus(stepId: StepId, attempt: nat, status: StepStatus)
    | SetStepOutput(stepId: StepId, attempt: nat, output: Value)
    | SetJobId(stepId: StepId, attempt: nat, jobId: Option<string>)
    | SetApproval(stepId: StepId, attempt: nat, approvalStatus: ApprovalStatus,
                  comment: Option<string>, feedback: Option<string>)
    | SetStepFailure(stepId: StepId, attempt: nat, reason: string)
    | SetRunPhase(phase: RunPhase)
    | SetRunCancelled
    | AppendEvent(event: RunEventRecord)

  datatype StoreError = NotFound | Duplicate(key: string)

  // ----- latest attempts ----------------------------------------------------------------

  /** The latest attempt of each step: the row with the highest attempt, the earliest such
      row if several share it. */
  function Latest(rows: seq<StepRecord>): map<StepId, StepRecord> {
    if rows == [] then map[]
    else
      var n := |rows| - 1;
      var before := Latest(rows[..n]);
      var row := rows[n];
      if row.run.stepId !in before || row.run.attempt > before[row.run.stepId].run.attempt
      then before[row.run.stepId := row]
      else before
  }

  function InOrder(latest: map<StepId, StepRecord>, ids: seq<StepId>): seq<StepRecord>
    requires forall id | id in ids :: id in latest
  {
    seq(|ids|, i requires 0 <= i < |ids| => assert ids[i] in ids; latest[ids[i]])
  }

  /** `latest_steps`: fold the rows into a map, then list it by step id. */
  method LatestSteps(rows: seq<StepRecord>) returns (out: seq<StepRecord>)
    ensures out == InOrder(Latest(rows), SortedIds(Latest(rows).Keys))
  {
    var latest: map<StepId, StepRecord> := map[];
    for i := 0 to |rows|
      invariant latest == Latest(rows[..i])
    {
      assert rows[..i + 1][..i] == rows[..i];
      var id := rows[i].run.stepId;
      if id !in latest || rows[i].run.attempt > latest[id].run.attempt {
        latest := latest[id := rows[i]];
      }
    }
    assert rows[..|rows|] == rows;
    out := InOrder(latest, SortedIds(latest.Keys));
  }

  function Runs(latest: map<StepId, StepRecord>): map<StepId, StepRun> {
    map id | id in latest :: latest[id].run
  }

  /** What the engine sees of a record. */
  function RunStateOf(rec: RunRecord): RunState {
    RunState(Runs(Latest(rec.steps)), rec.cancelled, rec.inputs, rec.trigger)
  }

  // ----- mutations ----------------------------------------------------------------------

  predicate HasKey(row: StepRecord, id: StepId, attempt: nat) {
    row.run.stepId == id && row.run.attempt == attempt
  }

  function FindRow(rows: seq<StepRecord>, id: StepId, attempt: nat): (r: Option<nat>)
    ensures r.Some? ==> r.value < |rows| && HasKey(rows[r.value], id, attempt)
    ensures r.None? ==> forall i :: 0 <= i < |rows| ==> !HasKey(rows[i], id, attempt)
  {
    if rows == [] then None
    else if HasKey(rows[0], id, attempt) then Some(0)
    else match FindRow(rows[1..], id, attempt)
         case Some(i) => Some(i + 1)
         case None => assert forall i :: 0 < i < |rows| ==> rows[i] == rows[1..][i - 1]; None
  }

  /** The rows other than the one with the given key, in order. */
  function Without(rows: seq<StepRecord>, id: StepId, attempt: nat): seq<StepRecord> {
    if rows == [] then []
    else
      var n := |rows| - 1;
      Without(rows[..n], id, attempt) + (if HasKey(rows[n], id, attempt) then [] else [rows[n]])
  }

  predicate PatchesRow(m: Mutation) {
    m.SetStepStatus? || m.SetStepOutput? || m.SetJobId? || m.SetApproval? || m.SetStepFailure?
  }

  /** The effect of a mutation on the row it names. */
  function Patched(m: Mutation, row: StepRecord): StepRecord
    requires PatchesRow(m)
  {
    match m
    case SetStepStatus(_, _, status) => row.(run := row.run.(status := status))
    case SetStepOutput(_, _, output) => row.(run := row.run.(output := Some(output)))
    case SetJobId(_, _, jobId) => row.(jobId := jobId)
    case SetApproval(_, _, status, comment, feedback) =>
      row.(run := row.run.(approvalStatus := Some(status), approvalComment := comment, feedback := feedback))
    case SetStepFailure(_, _, reason) => row.(run := row.run.(failureReason := Some(reason)))
  }

  /** `apply_mutation`. */
  function ApplyMutation(rec: RunRecord, m: Mutation): Result<RunRecord, StoreError> {
    match m
    case InsertStepRun(step) =>
      Ok(rec.(steps := Without(rec.steps, step.run.stepId, step.run.attempt) + [step]))
    case SetRunPhase(phase) => Ok(rec.(phase := phase))
    case SetRunCancelled => Ok(rec.(cancelled := true))
    case AppendEvent(_) => Ok(rec)
    case _ =>
      match FindRow(rec.steps, m.stepId, m.attempt)
      case None => Err(NotFound)
      case Some(i) => Ok(rec.(steps := rec.steps[i := Patched(m, rec.steps[i])]))
  }

  function ApplyAll(rec: RunRecord, ms: seq<Mutation>): Result<RunRecord, StoreError> {
    if ms == [] then Ok(rec)
    else
      var n := |ms| - 1;
      match ApplyAll(rec, ms[..n])
      case Err(e) => Err(e)
      case Ok(r) => ApplyMutation(r, ms[n])
  }

  function NextSequence(log: seq<StoredRunEvent>): nat {
    if log == [] then 1 else log[|log| - 1].sequence + 1
  }

  function LogOf(events: map<RunId, seq<StoredRunEvent>>, id: RunId): seq<StoredRunEvent> {
    if id in events then events[id] else []
  }

  /** Sequences are exactly 1 to n, in order. */
  ghost predicate Sequenced(log: seq<StoredRunEvent>) {
    forall i :: 0 <= i < |log| ==> log[i].sequence == i + 1
  }

  /** The log after the events among the mutations are appended, each with the next sequence. */
  function AppendAll(log: seq<StoredRunEvent>, ms: seq<Mutation>): seq<StoredRunEvent> {
    if ms == [] then log
    else
      var n := |ms| - 1;
      var before := AppendAll(log, ms[..n]);
      if ms[n].AppendEvent? then before + [StoredRunEvent(NextSequence(before), ms[n].event)] else before
  }

  /** A run as the store holds it: its record and its event log. */
  datatype RunView = RunView(rec: RunRecord, log: seq<StoredRunEvent>)

  /** One atomic batch: all of it, or an error and nothing. */
  function ApplyBatch(v: RunView, ms: seq<Mutation>): Result<RunView, StoreError> {
    match ApplyAll(v.rec, ms)
    case Err(e) => Err(e)
    case Ok(rec) => Ok(RunView(rec, AppendAll(v.log, ms)))
  }

  /** Batches one after the other, stopping at the first that fails. */
  function ApplyBatches(v: RunView, batches: seq<seq<Mutation>>): RunView
    decreases |batches|
  {
    if batches == [] then v
    else match ApplyBatch(v, batches[0])
      case Err(_) => v
      case Ok(next) => ApplyBatches(next, batches[1..])
  }

  predicate BatchesApply(v: RunView, batches: seq<seq<Mutation>>)
    decreases |batches|
  {
    batches == [] ||
    match ApplyBatch(v, batches[0])
    case Err(_) => false
    case Ok(next) => BatchesApply(next, batches[1..])
  }
}
