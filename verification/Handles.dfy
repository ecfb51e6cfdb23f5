/** Job handles: which handle each attempt of a stored run carries, after any history. */
module Handles {
  import opened Wrappers
  import opened FlowTypes
  import opened RunTypes
  import opened Engine
  import opened Ports
  import opened Store
  import opened Scheduler
  import opened Rows
  import opened Core
  import opened Refinement
  import opened Machine
  import opened Invariants
  import opened Stored

  // ----- writes that leave handles alone ------------------------------------------------

  ghost predicate Holds(rows: seq<StepRecord>, id: StepId, attempt: nat, job: Option<string>) {
    exists row :: row in rows && HasKey(row, id, attempt) && row.jobId == job
  }

  /** An attempt that was there has its handle; one that was not has none. */
  ghost predicate Inherits(base: seq<StepRecord>, row: StepRecord) {
    if HasAttempt(base, row.run.stepId, row.run.attempt)
    then Holds(base, row.run.stepId, row.run.attempt, row.jobId)
    else row.jobId.None?
  }

  /** Every attempt of `base` is still there, and no handle has changed. */
  ghost predicate KeepsHandles(base: RunRecord, rec: RunRecord) {
    && rec.runId == base.runId
    && (forall row :: row in rec.steps ==> Inherits(base.steps, row))
    && (forall row :: row in base.steps ==> HasAttempt(rec.steps, row.run.stepId, row.run.attempt))
  }

  /** A write that saves no handle and inserts no attempt that is already there. */
  ghost predicate Harmless(base: seq<StepRecord>, m: Mutation) {
    && !m.SetJobId?
    && (m.InsertStepRun? ==> m.step.jobId.None? && !HasAttempt(base, m.step.run.stepId, m.step.run.attempt))
  }

  ghost predicate AllHarmless(base: seq<StepRecord>, ms: seq<Mutation>) {
    forall m :: m in ms ==> Harmless(base, m)
  }

  lemma KeepsItself(rec: RunRecord)
    ensures KeepsHandles(rec, rec)
  {
    forall row | row in rec.steps ensures Holds(rec.steps, row.run.stepId, row.run.attempt, row.jobId) {
      assert HasKey(row, row.run.stepId, row.run.attempt);
    }
  }

  lemma KeepsOne(base: RunRecord, rec: RunRecord, m: Mutation)
    requires KeepsHandles(base, rec) && Harmless(base.steps, m) && ApplyMutation(rec, m).Ok?
    ensures KeepsHandles(base, ApplyMutation(rec, m).value)
  {
    hide HasAttempt, Holds;
    if m.InsertStepRun? {
      KeepsInsert(base, rec, m.step);
    } else if PatchesRow(m) {
      KeepsPatch(base, rec, m, FindRow(rec.steps, m.stepId, m.attempt).value);
    }
  }

  lemma KeepsInsert(base: RunRecord, rec: RunRecord, step: StepRecord)
    requires KeepsHandles(base, rec) && step.jobId.None?
    requires !HasAttempt(base.steps, step.run.stepId, step.run.attempt)
    ensures KeepsHandles(base, rec.(steps := Without(rec.steps, step.run.stepId, step.run.attempt) + [step]))
  {
    var kept := Without(rec.steps, step.run.stepId, step.run.attempt);
    WithoutKeeps(rec.steps, step.run.stepId, step.run.attempt);
    hide UniqueKeys, Without, Holds;
    forall row | row in base.steps ensures HasAttempt(kept + [step], row.run.stepId, row.run.attempt) {
      assert HasAttempt(rec.steps, row.run.stepId, row.run.attempt);
      var r :| r in rec.steps && HasKey(r, row.run.stepId, row.run.attempt);
      assert HasKey(row, row.run.stepId, row.run.attempt);
      assert r in kept + [step];
    }
  }

  lemma KeepsPatch(base: RunRecord, rec: RunRecord, m: Mutation, i: nat)
    requires KeepsHandles(base, rec) && PatchesRow(m) && !m.SetJobId? && i < |rec.steps|
    ensures KeepsHandles(base, rec.(steps := rec.steps[i := Patched(m, rec.steps[i])]))
  {
    var row := Patched(m, rec.steps[i]);
    assert row.run.stepId == rec.steps[i].run.stepId && row.run.attempt == rec.steps[i].run.attempt
        && row.jobId == rec.steps[i].jobId;
    hide Patched, Holds;
    AttemptsKept(rec.steps, i, row);
    hide HasAttempt;
    forall r | r in rec.steps[i := row] ensures Inherits(base.steps, r) {
      var k :| 0 <= k < |rec.steps| && rec.steps[i := row][k] == r;
      assert Inherits(base.steps, rec.steps[k]);
    }
  }

  lemma AttemptsKept(rows: seq<StepRecord>, i: nat, row: StepRecord)
    requires i < |rows| && HasKey(row, rows[i].run.stepId, rows[i].run.attempt)
    ensures forall id, n: nat :: HasAttempt(rows, id, n) <==> HasAttempt(rows[i := row], id, n)
  {
    var rows' := rows[i := row];
    forall id, n: nat | HasAttempt(rows, id, n) ensures HasAttempt(rows', id, n) {
      var r :| r in rows && HasKey(r, id, n);
      var k :| 0 <= k < |rows| && rows[k] == r;
      assert rows'[k] in rows' && HasKey(rows'[k], id, n);
    }
    forall id, n: nat | HasAttempt(rows', id, n) ensures HasAttempt(rows, id, n) {
      var r :| r in rows' && HasKey(r, id, n);
      var k :| 0 <= k < |rows| && rows'[k] == r;
      assert rows[k] in rows && HasKey(rows[k], id, n);
    }
  }

  lemma {:induction false} KeepsAll(base: RunRecord, rec: RunRecord, ms: seq<Mutation>)
    requires KeepsHandles(base, rec) && AllHarmless(base.steps, ms) && ApplyAll(rec, ms).Ok?
    ensures KeepsHandles(base, ApplyAll(rec, ms).value)
  {
    if ms != [] {
      var n := |ms| - 1;
      assert ms[n] in ms && forall m :: m in ms[..n] ==> m in ms;
      hide KeepsHandles, Harmless, ApplyMutation;
      KeepsAll(base, rec, ms[..n]);
      KeepsOne(base, ApplyAll(rec, ms[..n]).value, ms[n]);
    }
  }

  lemma {:induction false} KeepsBatches(base: RunRecord, v: RunView, batches: seq<seq<Mutation>>)
    requires KeepsHandles(base, v.rec) && forall b :: b in batches ==> AllHarmless(base.steps, b)
    ensures KeepsHandles(base, ApplyBatches(v, batches).rec)
    decreases |batches|
  {
    if batches != [] && ApplyBatch(v, batches[0]).Ok? {
      assert batches[0] in batches && forall b :: b in batches[1..] ==> b in batches;
      hide KeepsHandles, AllHarmless, ApplyAll, AppendAll;
      KeepsAll(base, v.rec, batches[0]);
      KeepsBatches(base, ApplyBatch(v, batches[0]).value, batches[1..]);
    }
  }

  // ----- what a submit writes -----------------------------------------------------------

  lemma {:induction false} CancelHarmless(base: seq<StepRecord>, rec: RunRecord, ids: seq<StepId>)
    ensures AllHarmless(base, CancelAll(rec, ids))
  {
    if ids != [] {
      CancelHarmless(base, rec, ids[..|ids| - 1]);
    }
  }

  lemma WritesHarmless(base: seq<StepRecord>, rec: RunRecord, event: Event, cmd: Command)
    requires !cmd.ActivateSteps? && Writes(rec, event, cmd).Ok?
    ensures AllHarmless(base, Writes(rec, event, cmd).value)
  {
    if cmd.CancelSteps? { CancelHarmless(base, rec, cmd.stepIds); }
    hide CancelAll, LatestRow, HasAttempt;
  }

  lemma {:induction false} ActivationsHarmless(base: seq<StepRecord>, acts: seq<StepActivation>)
    requires forall a :: a in acts ==> !HasAttempt(base, a.stepId, a.attempt)
    ensures AllHarmless(base, AllActivationWrites(acts))
  {
    if acts != [] {
      hide HasAttempt;
      var n := |acts| - 1;
      assert acts[n] in acts && forall a :: a in acts[..n] ==> a in acts;
      ActivationsHarmless(base, acts[..n]);
    }
  }

  /** The commands start only attempts that are not there. */
  ghost predicate StartFresh(base: seq<StepRecord>, cmds: seq<Command>) {
    forall cmd :: cmd in cmds && cmd.ActivateSteps? ==>
      forall a :: a in cmd.activations ==> !HasAttempt(base, a.stepId, a.attempt)
  }

  lemma BothHarmless(base: seq<StepRecord>, a: seq<Mutation>, b: seq<Mutation>)
    requires AllHarmless(base, a) && AllHarmless(base, b)
    ensures AllHarmless(base, a + b)
  {
    hide Harmless;
  }

  lemma {:induction false} PlanHarmless(rec: RunRecord, event: Event, cmds: seq<Command>, pending: seq<Mutation>)
    requires AllHarmless(rec.steps, pending) && StartFresh(rec.steps, cmds)
    ensures forall b :: b in Plan(rec, event, cmds, pending).batches ==> AllHarmless(rec.steps, b)
    decreases |cmds|
  {
    hide AllHarmless, HasAttempt, ActivationBuilds, Writes;
    if cmds != [] {
      assert cmds[0] in cmds && forall c :: c in cmds[1..] ==> c in cmds;
      if cmds[0].ActivateSteps? {
        ActivationsHarmless(rec.steps, cmds[0].activations);
        BothHarmless(rec.steps, pending, AllActivationWrites(cmds[0].activations));
        NoneHarmful(rec.steps);
        PlanHarmless(rec, event, cmds[1..], []);
      } else if Writes(rec, event, cmds[0]).Ok? {
        WritesHarmless(rec.steps, rec, event, cmds[0]);
        BothHarmless(rec.steps, pending, Writes(rec, event, cmds[0]).value);
        PlanHarmless(rec, event, cmds[1..], pending + Writes(rec, event, cmds[0]).value);
      }
    }
  }

  lemma NoneHarmful(base: seq<StepRecord>)
    ensures AllHarmless(base, [])
  {
  }

  lemma {:induction false} ActivationCommandsOf(acts: seq<StepActivation>)
    ensures forall cmd :: cmd in ActivationCommands(acts) ==>
              cmd.ActivateSteps? && forall a :: a in cmd.activations ==> a in acts
  {
    if acts != [] {
      ActivationCommandsOf(acts[1..]);
      assert acts[0] in acts;
    }
  }

  lemma {:induction false} SkipCommandsOf(ids: seq<StepId>)
    ensures forall cmd :: cmd in SkipCommands(ids) ==> cmd.MarkStepStatus?
  {
    if ids != [] { SkipCommandsOf(ids[..|ids| - 1]); }
  }

  lemma CommandsStart(e: Effect)
    ensures forall cmd, a :: cmd in CommandsOf(e) && cmd.ActivateSteps? && a in cmd.activations ==> a in e.activations
  {
    ActivationCommandsOf(e.activations);
    SkipCommandsOf(e.skips);
    hide ActivationCommands, SkipCommands;
  }

  /** What an event starts has no row yet. */
  lemma StartsFresh(v: RunView, flow: Flow, r: Run, event: Event, e: Effect)
    requires Shows(v, flow, r) && NoVerdictYet(r.state.steps)
    requires Enabled(r.state, event) && Transition(flow, r.state, event) == Ok(e)
    ensures StartFresh(v.rec.steps, CommandsOf(e))
  {
    hide *;
    EffectShape(flow, r.state, event, e);
    EffectNextAttempts(flow, r.state, event, e);
    CommandsStart(e);
    forall a | a in e.activations ensures !HasAttempt(v.rec.steps, a.stepId, a.attempt) {
      NextIsNew(v, flow, r, event, e, a);
    }
    FreshBy(v.rec.steps, e);
  }

  lemma FreshBy(base: seq<StepRecord>, e: Effect)
    requires forall cmd, a :: cmd in CommandsOf(e) && cmd.ActivateSteps? && a in cmd.activations ==> a in e.activations
    requires forall a :: a in e.activations ==> !HasAttempt(base, a.stepId, a.attempt)
    ensures StartFresh(base, CommandsOf(e))
  {
    hide HasAttempt, CommandsOf;
  }

  lemma NextIsNew(v: RunView, flow: Flow, r: Run, event: Event, e: Effect, a: StepActivation)
    requires Shows(v, flow, r) && NextIsMarked(r.state, event, e) && NextAttempts(flow, e.next.steps, e.activations)
    requires a in e.activations
    ensures !HasAttempt(v.rec.steps, a.stepId, a.attempt)
  {
    hide CancelIds, Contiguous, LatestPresent, UniqueKeys;
    CancelIdsAt(MarkedSteps(r.state.steps, event, e.mark), e.cancels);
  }

  lemma SubmitKeeps(v: RunView, flow: Flow, r: Run, event: Event, flushed: nat)
    requires Shows(v, flow, r) && NoVerdictYet(r.state.steps) && Enabled(RunStateOf(v.rec), event)
    ensures KeepsHandles(v.rec, SubmittedUpTo(v, event, flushed).rec)
  {
    hide *;
    ShownState(v, flow, r);
    KeepsItself(v.rec);
    if r.phase != RunPhase.Running || Transition(flow, r.state, event).Err? {
      NothingSubmitted(v, flow, r, event, flushed);
    } else {
      var e := Transition(flow, r.state, event).value;
      StartsFresh(v, flow, r, event, e);
      DecidedPlan(v, flow, r, event, e);
      NoneHarmful(v.rec.steps);
      PlanHarmless(v.rec, event, CommandsOf(e), []);
      UpTo(v, event, flushed);
      var batches := BatchesFor(v, event);
      KeepsBatches(v.rec, v, batches[..if flushed < |batches| then flushed else |batches|]);
    }
  }

  // ----- one action ---------------------------------------------------------------------

  /** A saved handle goes to the attempt it names, if that is there; nothing else changes one. */
  ghost predicate HandlesAfter(before: RunRecord, a: Action, after: RunRecord) {
    && after.runId == before.runId
    && (forall row :: row in before.steps ==> HasAttempt(after.steps, row.run.stepId, row.run.attempt))
    && (forall row :: row in after.steps ==>
          if a.JobStarted? && HasKey(row, a.stepId, a.attempt)
          then HasAttempt(before.steps, a.stepId, a.attempt) && row.jobId == Some(a.jobId)
          else Inherits(before.steps, row))
  }

  lemma LogKeeps(v: RunView, e: RunEventRecord)
    ensures Happens(v, Log(e)).rec == v.rec
  {
    SingleBatch(v, AppendEvent(e));
    SingleFlush(v, [AppendEvent(e)]);
  }

  /** Saving a handle: the row of the attempt has it and every other row is as it was. */
  lemma JobSaved(v: RunView, id: StepId, n: nat, job: string)
    ensures var found, after := FindRow(v.rec.steps, id, n), Happens(v, JobStarted(id, n, job)).rec;
            if found.None? then after == v.rec
            else after == v.rec.(steps := v.rec.steps[found.value := v.rec.steps[found.value].(jobId := Some(job))])
  {
    var m, e := SetJobId(id, n, Some(job)), RunEventRecord(StepStarted, Some(id));
    hide ApplyBatch, ApplyBatches, FindRow;
    assert [m] + [AppendEvent(e)] == [m, Note(StepStarted, id)];
    BatchSplits(v, [m], [AppendEvent(e)]);
    SingleBatch(v, m);
    if FindRow(v.rec.steps, id, n).Some? {
      SingleBatch(ApplyBatch(v, [m]).value, AppendEvent(e));
      SingleFlush(v, [m, Note(StepStarted, id)]);
    } else {
      RefusedBatch(v, [m, Note(StepStarted, id)]);
    }
  }

  lemma JobHandles(v: RunView, id: StepId, n: nat, job: string)
    requires UniqueKeys(v.rec.steps)
    ensures HandlesAfter(v.rec, JobStarted(id, n, job), Happens(v, JobStarted(id, n, job)).rec)
  {
    JobSaved(v, id, n, job);
    var rows, found, after := v.rec.steps, FindRow(v.rec.steps, id, n), Happens(v, JobStarted(id, n, job)).rec;
    hide FindRow, Happens, Inherits, HasAttempt;
    KeepsItself(v.rec);
    Unfold(v.rec, v.rec);
    if found.None? {
      forall row | row in rows ensures !HasKey(row, id, n) {}
    } else {
      JobRows(v.rec, found.value, job);
    }
  }

  lemma Unfold(base: RunRecord, rec: RunRecord)
    requires KeepsHandles(base, rec)
    ensures rec.runId == base.runId
    ensures forall row :: row in rec.steps ==> Inherits(base.steps, row)
    ensures forall row :: row in base.steps ==> HasAttempt(rec.steps, row.run.stepId, row.run.attempt)
  {
  }

  lemma JobRows(rec: RunRecord, i: nat, job: string)
    requires UniqueKeys(rec.steps) && i < |rec.steps|
    requires forall row :: row in rec.steps ==> Inherits(rec.steps, row)
    requires forall row :: row in rec.steps ==> HasAttempt(rec.steps, row.run.stepId, row.run.attempt)
    ensures HandlesAfter(rec, JobStarted(rec.steps[i].run.stepId, rec.steps[i].run.attempt, job),
                         rec.(steps := rec.steps[i := rec.steps[i].(jobId := Some(job))]))
  {
    var rows, row := rec.steps, rec.steps[i].(jobId := Some(job));
    AttemptsKept(rows, i, row);
    KeysKept(rows, i, row);
    hide Inherits, HasAttempt;
    assert rows[i] in rows;
    forall r | r in rows[i := row] && HasKey(r, row.run.stepId, row.run.attempt) ensures r == row {
      SameKeySameRow(rows[i := row], r, row);
    }
  }

  lemma ActionHandles(v: RunView, flow: Flow, r: Run, a: Action)
    requires Shows(v, flow, r) && NoVerdictYet(r.state.steps) && Possible(v, a)
    ensures HandlesAfter(v.rec, a, Happens(v, a).rec)
  {
    hide *;
    match a {
      case Submit(event, flushed) =>
        SubmitPossible(v, event, flushed);
        SubmitKeeps(v, flow, r, event, flushed);
        KeptAfter(v.rec, a, Happens(v, a).rec);
      case JobStarted(id, n, job) =>
        ShownKeys(v, flow, r);
        JobHandles(v, id, n, job);
      case Log(e) =>
        LogKeeps(v, e);
        KeepsItself(v.rec);
        KeptAfter(v.rec, a, Happens(v, a).rec);
    }
  }

  lemma SubmitPossible(v: RunView, event: Event, flushed: nat)
    requires Possible(v, Submit(event, flushed))
    ensures Enabled(RunStateOf(v.rec), event)
    ensures Happens(v, Submit(event, flushed)) == SubmittedUpTo(v, event, flushed)
  {
    hide Enabled, RunStateOf, SubmittedUpTo;
  }

  lemma KeptAfter(before: RunRecord, a: Action, after: RunRecord)
    requires KeepsHandles(before, after) && !a.JobStarted?
    ensures HandlesAfter(before, a, after)
  {
    hide Inherits, HasAttempt;
  }

  lemma ShownKeys(v: RunView, flow: Flow, r: Run)
    requires Shows(v, flow, r)
    ensures UniqueKeys(v.rec.steps)
  {
  }

  // ----- over a history -----------------------------------------------------------------

  /** The `k`-th action of a history saved a handle for an attempt that was there, and no later
      one saved another. */
  ghost predicate SavedLast(v: RunView, actions: seq<Action>, k: nat, id: StepId, attempt: nat, job: string) {
    && k < |actions| && actions[k] == JobStarted(id, attempt, job)
    && HasAttempt(StoredAfter(v, actions[..k]).rec.steps, id, attempt)
    && forall m :: k < m < |actions| ==>
         !(actions[m].JobStarted? && actions[m].stepId == id && actions[m].attempt == attempt)
  }

  /** The handle that a history leaves saved for an attempt. */
  ghost predicate Saved(v: RunView, actions: seq<Action>, id: StepId, attempt: nat, job: string) {
    exists k: nat :: SavedLast(v, actions, k, id, attempt, job)
  }

  lemma LastAction(v: RunView, actions: seq<Action>)
    requires History(v, actions) && actions != []
    ensures var n := |actions| - 1;
            && History(v, actions[..n]) && Possible(StoredAfter(v, actions[..n]), actions[n])
            && StoredAfter(v, actions) == Happens(StoredAfter(v, actions[..n]), actions[n])
  {
    hide Possible, Happens;
  }

  lemma LastHandles(id: RunId, new_: NewRun, actions: seq<Action>)
    requires History(NewView(id, new_), actions) && actions != []
    ensures var v, n := NewView(id, new_), |actions| - 1;
            && History(v, actions[..n])
            && HandlesAfter(StoredAfter(v, actions[..n]).rec, actions[n], StoredAfter(v, actions).rec)
  {
    hide *;
    var v, n := NewView(id, new_), |actions| - 1;
    LastAction(v, actions);
    var r := StoredInvariant(id, new_, actions[..n]);
    VerdictsOpen(new_.definition, r);
    ActionHandles(StoredAfter(v, actions[..n]), new_.definition, r, actions[n]);
  }

  /** Attempts are never lost, nor is the run's id. */
  lemma {:induction false} AttemptsStay(id: RunId, new_: NewRun, actions: seq<Action>, k: nat, step: StepId, n: nat)
    requires History(NewView(id, new_), actions) && k <= |actions|
    ensures StoredAfter(NewView(id, new_), actions).rec.runId == id
    ensures HasAttempt(StoredAfter(NewView(id, new_), actions[..k]).rec.steps, step, n) ==>
              HasAttempt(StoredAfter(NewView(id, new_), actions).rec.steps, step, n)
    decreases |actions|
  {
    hide *;
    var v, m := NewView(id, new_), |actions| - 1;
    if actions == [] {
      assert actions[..k] == actions;
      NewId(id, new_);
    } else {
      LastHandles(id, new_, actions);
      AttemptStays(StoredAfter(v, actions[..m]).rec, actions[m], StoredAfter(v, actions).rec, step, n);
      if k == |actions| {
        assert actions[..k] == actions;
        AttemptsStay(id, new_, actions[..m], m, step, n);
      } else {
        assert actions[..m][..k] == actions[..k];
        AttemptsStay(id, new_, actions[..m], k, step, n);
      }
    }
  }

  lemma NewId(id: RunId, new_: NewRun)
    ensures StoredAfter(NewView(id, new_), []).rec.runId == id && StoredAfter(NewView(id, new_), []).rec.steps == []
  {
  }

  lemma AttemptStays(before: RunRecord, a: Action, after: RunRecord, step: StepId, n: nat)
    requires HandlesAfter(before, a, after)
    ensures after.runId == before.runId
    ensures HasAttempt(before.steps, step, n) ==> HasAttempt(after.steps, step, n)
  {
    hide Inherits;
  }

  /** After every history, a row carries exactly the handle that was last saved for its attempt,
      and none if none was saved since the attempt was there. */
  lemma {:induction false} HandleSaved(id: RunId, new_: NewRun, actions: seq<Action>, row: StepRecord)
    requires History(NewView(id, new_), actions) && row in StoredAfter(NewView(id, new_), actions).rec.steps
    ensures forall job ::
              row.jobId == Some(job) <==> Saved(NewView(id, new_), actions, row.run.stepId, row.run.attempt, job)
    decreases |actions|
  {
    hide *;
    var v, n, step, attempt := NewView(id, new_), |actions| - 1, row.run.stepId, row.run.attempt;
    NewId(id, new_);
    LastHandles(id, new_, actions);
    var before, a := StoredAfter(v, actions[..n]).rec, actions[n];
    if a.JobStarted? && a.stepId == step && a.attempt == attempt {
      JobRow(before, a, StoredAfter(v, actions).rec, row);
      SavedNow(v, actions, step, attempt);
    } else {
      PlainRow(before, a, StoredAfter(v, actions).rec, row);
      SavedBefore(v, actions, step, attempt);
      if HasAttempt(before.steps, step, attempt) {
        var old_ := Carried(before.steps, row);
        HandleSaved(id, new_, actions[..n], old_);
      } else {
        forall job ensures !Saved(v, actions[..n], step, attempt, job) {
          NeverSaved(id, new_, actions[..n], step, attempt, job);
        }
      }
    }
  }

  lemma JobRow(before: RunRecord, a: Action, after: RunRecord, row: StepRecord)
    requires HandlesAfter(before, a, after) && row in after.steps
    requires a.JobStarted? && a.stepId == row.run.stepId && a.attempt == row.run.attempt
    ensures HasAttempt(before.steps, row.run.stepId, row.run.attempt) && row.jobId == Some(a.jobId)
  {
    hide Inherits, HasAttempt;
  }

  lemma PlainRow(before: RunRecord, a: Action, after: RunRecord, row: StepRecord)
    requires HandlesAfter(before, a, after) && row in after.steps
    requires !(a.JobStarted? && a.stepId == row.run.stepId && a.attempt == row.run.attempt)
    ensures if HasAttempt(before.steps, row.run.stepId, row.run.attempt)
            then Holds(before.steps, row.run.stepId, row.run.attempt, row.jobId)
            else row.jobId.None?
  {
    hide HasAttempt, Holds;
  }

  lemma Carried(rows: seq<StepRecord>, row: StepRecord) returns (old_: StepRecord)
    requires Holds(rows, row.run.stepId, row.run.attempt, row.jobId)
    ensures old_ in rows && old_.run.stepId == row.run.stepId && old_.run.attempt == row.run.attempt
    ensures old_.jobId == row.jobId
  {
    old_ :| old_ in rows && HasKey(old_, row.run.stepId, row.run.attempt) && old_.jobId == row.jobId;
  }

  lemma SavedNow(v: RunView, actions: seq<Action>, step: StepId, attempt: nat)
    requires actions != [] && actions[|actions| - 1].JobStarted?
    requires actions[|actions| - 1].stepId == step && actions[|actions| - 1].attempt == attempt
    requires HasAttempt(StoredAfter(v, actions[..|actions| - 1]).rec.steps, step, attempt)
    ensures forall job :: Saved(v, actions, step, attempt, job) <==> job == actions[|actions| - 1].jobId
  {
    hide HasAttempt, StoredAfter;
    var n := |actions| - 1;
    assert SavedLast(v, actions, n, step, attempt, actions[n].jobId);
  }

  lemma SavedBefore(v: RunView, actions: seq<Action>, step: StepId, attempt: nat)
    requires actions != []
    requires var a := actions[|actions| - 1]; !(a.JobStarted? && a.stepId == step && a.attempt == attempt)
    ensures forall job ::
              Saved(v, actions, step, attempt, job) <==> Saved(v, actions[..|actions| - 1], step, attempt, job)
  {
    hide HasAttempt, StoredAfter;
    var n := |actions| - 1;
    forall k: nat, job
      ensures SavedLast(v, actions, k, step, attempt, job) <==> SavedLast(v, actions[..n], k, step, attempt, job)
    {
      if k < n { assert actions[..n][..k] == actions[..k]; }
    }
  }

  lemma NeverSaved(id: RunId, new_: NewRun, actions: seq<Action>, step: StepId, attempt: nat, job: string)
    requires History(NewView(id, new_), actions)
    requires !HasAttempt(StoredAfter(NewView(id, new_), actions).rec.steps, step, attempt)
    ensures !Saved(NewView(id, new_), actions, step, attempt, job)
  {
    hide StoredAfter, History, NewView, HasAttempt;
    if Saved(NewView(id, new_), actions, step, attempt, job) {
      var k: nat :| SavedLast(NewView(id, new_), actions, k, step, attempt, job);
      AttemptsStay(id, new_, actions, k, step, attempt);
    }
  }
}
