/** Crash recovery: the action planned for every run left in phase Running. */
module Recovery {
  import opened Wrappers
  import opened Ordering
  import opened FlowTypes
  import opened RunTypes
  import opened Ports
  import opened Store
  import opened Rows
  import opened Machine
  import opened Stored
  import opened Handles

  datatype RecoveryAction =
    | ReattachStep(runId: RunId, stepId: StepId, attempt: nat, jobId: string)
    | FailStep(runId: RunId, stepId: StepId, attempt: nat)
    | LeaveWaitingApproval(runId: RunId, stepId: StepId, attempt: nat)
    | RecheckSubflow(runId: RunId, stepId: StepId, attempt: nat, childRunId: string)
    | ReissueRunStarted(runId: RunId)

  /** What recovery does about one latest attempt. */
  function ActionFor(runId: RunId, row: StepRecord): seq<RecoveryAction> {
    var id, n := row.run.stepId, row.run.attempt;
    match row.run.status
    case Running =>
      (match row.jobId
       case Some(job) => [ReattachStep(runId, id, n, job)]
       case None => [FailStep(runId, id, n)])
    case WaitingApproval => [LeaveWaitingApproval(runId, id, n)]
    case WaitingOnSubflow =>
      (match row.run.childRunId
       case Some(child) => [RecheckSubflow(runId, id, n, child)]
       case None => [FailStep(runId, id, n)])
    case _ => []
  }

  function ActionsFor(runId: RunId, rows: seq<StepRecord>): seq<RecoveryAction> {
    if rows == [] then []
    else ActionsFor(runId, rows[..|rows| - 1]) + ActionFor(runId, rows[|rows| - 1])
  }

  function LatestList(rec: RunRecord): seq<StepRecord> {
    InOrder(Latest(rec.steps), SortedIds(Latest(rec.steps).Keys))
  }

  function PlanFor(rec: RunRecord): seq<RecoveryAction> {
    var actions := ActionsFor(rec.runId, LatestList(rec));
    if actions == [] && rec.steps == [] then [ReissueRunStarted(rec.runId)] else actions
  }

  function PlanAll(runs: seq<RunRecord>): seq<RecoveryAction> {
    if runs == [] then [] else PlanAll(runs[..|runs| - 1]) + PlanFor(runs[|runs| - 1])
  }

  /** The inner loop of `recovery_plan`: one action per active latest attempt. */
  method PlanSteps(runId: RunId, latest: seq<StepRecord>) returns (actions: seq<RecoveryAction>, produced: bool)
    ensures actions == ActionsFor(runId, latest)
    ensures produced <==> actions != []
  {
    actions, produced := [], false;
    for k := 0 to |latest|
      invariant actions == ActionsFor(runId, latest[..k])
      invariant produced <==> actions != []
    {
      assert latest[..k + 1][..k] == latest[..k];
      var row := latest[k];
      var id, n := row.run.stepId, row.run.attempt;
      if !row.run.status.IsActive() {
        assert actions + [] == actions;
        continue;
      }
      match row.run.status {
        case Running =>
          if row.jobId.Some? {
            actions := actions + [ReattachStep(runId, id, n, row.jobId.value)];
          } else {
            actions := actions + [FailStep(runId, id, n)];
          }
        case WaitingApproval =>
          actions := actions + [LeaveWaitingApproval(runId, id, n)];
        case WaitingOnSubflow =>
          if row.run.childRunId.Some? {
            actions := actions + [RecheckSubflow(runId, id, n, row.run.childRunId.value)];
          } else {
            actions := actions + [FailStep(runId, id, n)];
          }
      }
      produced := true;
    }
    assert latest[..|latest|] == latest;
  }

  /** `recovery_plan`: every run in turn; a run that produced nothing and has no row at all is
      started again. */
  method RecoveryPlan(runs: seq<RunRecord>) returns (actions: seq<RecoveryAction>)
    ensures AsDue(runs, actions)
    ensures actions == PlanAll(runs)
  {
    hide Latest, SortedIds, ActionsFor, Due, AsDue;
    actions := [];
    for i := 0 to |runs|
      invariant actions == PlanAll(runs[..i])
    {
      assert runs[..i + 1][..i] == runs[..i];
      var run := runs[i];
      var latest := LatestSteps(run.steps);
      var mine, producedForThisRun := PlanSteps(run.runId, latest);
      if !producedForThisRun && run.steps == [] {
        mine := mine + [ReissueRunStarted(run.runId)];
      }
      assert mine == PlanFor(run);
      actions := actions + mine;
    }
    assert runs[..|runs|] == runs;
    PlannedAsDue(runs);
  }

  // ----- which actions ------------------------------------------------------------------

  /** What a row calls for: reattaching to a job is for a Running attempt with that handle,
      failing it for one without and for a wait on a subflow without a child; a wait for approval
      is left alone and a wait on a child is checked again. */
  ghost predicate CallsFor(runId: RunId, row: StepRecord, a: RecoveryAction) {
    && !a.ReissueRunStarted?
    && a.runId == runId && a.stepId == row.run.stepId && a.attempt == row.run.attempt
    && match a
       case ReattachStep(_, _, _, job) => row.run.status.Running? && row.jobId == Some(job)
       case FailStep(_, _, _) =>
         (row.run.status.Running? && row.jobId == None)
         || (row.run.status.WaitingOnSubflow? && row.run.childRunId == None)
       case LeaveWaitingApproval(_, _, _) => row.run.status.WaitingApproval?
       case RecheckSubflow(_, _, _, child) => row.run.status.WaitingOnSubflow? && row.run.childRunId == Some(child)
  }

  /** What a record calls for: what the latest attempt of each step does, or a new start if it has
      no row at all. */
  ghost predicate Due(rec: RunRecord, a: RecoveryAction) {
    if a.ReissueRunStarted? then a.runId == rec.runId && rec.steps == []
    else a.stepId in Latest(rec.steps) && CallsFor(rec.runId, Latest(rec.steps)[a.stepId], a)
  }

  lemma ActionCalled(runId: RunId, row: StepRecord, a: RecoveryAction)
    ensures a in ActionFor(runId, row) <==> CallsFor(runId, row, a)
  {
  }

  lemma {:induction false} ActionsCalled(runId: RunId, rows: seq<StepRecord>, a: RecoveryAction)
    ensures a in ActionsFor(runId, rows) <==> exists row :: row in rows && CallsFor(runId, row, a)
  {
    if rows != [] {
      var n := |rows| - 1;
      ActionCalled(runId, rows[n], a);
      ActionsCalled(runId, rows[..n], a);
      hide CallsFor, ActionFor;
      assert forall row :: row in rows <==> row in rows[..n] || row == rows[n];
    }
  }

  /** The plan of a record holds exactly the actions its rows call for. */
  lemma PlanDue(rec: RunRecord, a: RecoveryAction)
    ensures a in PlanFor(rec) <==> Due(rec, a)
  {
    hide *;
    ActionsCalled(rec.runId, LatestList(rec), a);
    ListedOnce(rec);
    OfRow(rec.runId, a);
    if exists row :: row in LatestList(rec) && CallsFor(rec.runId, row, a) {
      var row :| row in LatestList(rec) && CallsFor(rec.runId, row, a);
    }
    if rec.steps == [] { NoRowPlan(rec); }
    PlanIs(rec, a);
    DueIs(rec, a);
  }

  lemma OfRow(runId: RunId, a: RecoveryAction)
    ensures forall row :: CallsFor(runId, row, a) ==> !a.ReissueRunStarted? && a.stepId == row.run.stepId
  {
  }

  lemma NoRowPlan(rec: RunRecord)
    requires rec.steps == []
    ensures ActionsFor(rec.runId, LatestList(rec)) == []
  {
    assert LatestList(rec) == [];
  }

  lemma PlanIs(rec: RunRecord, a: RecoveryAction)
    ensures a in PlanFor(rec) <==>
              a in ActionsFor(rec.runId, LatestList(rec))
              || (a == ReissueRunStarted(rec.runId) && rec.steps == [] && ActionsFor(rec.runId, LatestList(rec)) == [])
  {
    hide ActionsFor, LatestList;
  }

  lemma DueIs(rec: RunRecord, a: RecoveryAction)
    ensures Due(rec, a) <==>
              if a.ReissueRunStarted? then a == ReissueRunStarted(rec.runId) && rec.steps == []
              else a.stepId in Latest(rec.steps) && CallsFor(rec.runId, Latest(rec.steps)[a.stepId], a)
  {
    hide CallsFor, Latest;
  }

  lemma {:induction false} AllDue(runs: seq<RunRecord>, a: RecoveryAction)
    ensures a in PlanAll(runs) <==> exists i :: 0 <= i < |runs| && Due(runs[i], a)
  {
    if runs != [] {
      hide PlanFor, Due;
      var n := |runs| - 1;
      AllDue(runs[..n], a);
      PlanDue(runs[n], a);
      if i :| 0 <= i < n && Due(runs[..n][i], a) { assert Due(runs[i], a); }
      if i :| 0 <= i < |runs| && Due(runs[i], a) { assert i == n || Due(runs[..n][i], a); }
    }
  }

  /** The actions are those that some of the records call for. */
  ghost predicate AsDue(runs: seq<RunRecord>, actions: seq<RecoveryAction>) {
    forall a :: a in actions <==> exists i :: 0 <= i < |runs| && Due(runs[i], a)
  }

  lemma PlannedAsDue(runs: seq<RunRecord>)
    ensures AsDue(runs, PlanAll(runs))
  {
    hide PlanAll, Due;
    forall a ensures a in PlanAll(runs) <==> exists i :: 0 <= i < |runs| && Due(runs[i], a) { AllDue(runs, a); }
  }

  // ----- coverage -----------------------------------------------------------------------

  predicate ActsOn(a: RecoveryAction, id: StepId, attempt: nat) {
    !a.ReissueRunStarted? && a.stepId == id && a.attempt == attempt
  }

  function CountActions(actions: seq<RecoveryAction>, id: StepId): nat {
    if actions == [] then 0
    else
      var n := |actions| - 1;
      CountActions(actions[..n], id) + (if !actions[n].ReissueRunStarted? && actions[n].stepId == id then 1 else 0)
  }

  lemma {:induction false} CountConcat(a: seq<RecoveryAction>, b: seq<RecoveryAction>, id: StepId)
    ensures CountActions(a + b, id) == CountActions(a, id) + CountActions(b, id)
    decreases |b|
  {
    if b == [] {
      assert a + b == a;
    } else {
      var n := |b| - 1;
      assert (a + b)[..|a + b| - 1] == a + b[..n];
      CountConcat(a, b[..n], id);
    }
  }

  lemma OneAction(runId: RunId, row: StepRecord, id: StepId)
    ensures CountActions(ActionFor(runId, row), id) ==
            if row.run.status.IsActive() && row.run.stepId == id then 1 else 0
    ensures forall a :: a in ActionFor(runId, row) ==> ActsOn(a, row.run.stepId, row.run.attempt)
    ensures ActionFor(runId, row) != [] <==> row.run.status.IsActive()
  {
    var actions := ActionFor(runId, row);
    if actions != [] { assert actions == [actions[0]] && actions[..0] == []; }
  }

  predicate Going(row: StepRecord, id: StepId) {
    row.run.stepId == id && row.run.status.IsActive()
  }

  ghost predicate SomeGoing(rows: seq<StepRecord>, id: StepId) {
    exists i :: 0 <= i < |rows| && Going(rows[i], id)
  }

  ghost predicate ListedApart(rows: seq<StepRecord>) {
    forall i, j :: 0 <= i < j < |rows| ==> rows[i].run.stepId != rows[j].run.stepId
  }

  lemma GoingLast(rows: seq<StepRecord>, id: StepId)
    requires rows != [] && ListedApart(rows)
    ensures var n := |rows| - 1;
            && ListedApart(rows[..n])
            && (SomeGoing(rows, id) <==> SomeGoing(rows[..n], id) || Going(rows[n], id))
            && !(SomeGoing(rows[..n], id) && Going(rows[n], id))
  {
    var n := |rows| - 1;
    forall i | 0 <= i < n ensures rows[..n][i] == rows[i] {}
    if SomeGoing(rows[..n], id) {
      var i :| 0 <= i < n && Going(rows[..n][i], id);
      assert Going(rows[i], id);
    }
    if SomeGoing(rows, id) && !Going(rows[n], id) {
      var i :| 0 <= i < |rows| && Going(rows[i], id);
      assert Going(rows[..n][i], id);
    }
  }

  /** Each listed row gets one action if it is active and none otherwise, when every step is
      listed once. */
  lemma {:induction false} ActionsCover(runId: RunId, rows: seq<StepRecord>, id: StepId)
    requires ListedApart(rows)
    ensures CountActions(ActionsFor(runId, rows), id) == if SomeGoing(rows, id) then 1 else 0
  {
    if rows != [] {
      var n := |rows| - 1;
      GoingLast(rows, id);
      ActionsCover(runId, rows[..n], id);
      OneAction(runId, rows[n], id);
      CountConcat(ActionsFor(runId, rows[..n]), ActionFor(runId, rows[n]), id);
      hide ListedApart, SomeGoing, CountActions, ActionFor;
    }
  }

  /** Every action is about the attempt of a listed row. */
  lemma {:induction false} ActionsAreOfRows(runId: RunId, rows: seq<StepRecord>, a: RecoveryAction) returns (k: nat)
    requires a in ActionsFor(runId, rows)
    ensures k < |rows| && ActsOn(a, rows[k].run.stepId, rows[k].run.attempt)
  {
    var n := |rows| - 1;
    OneAction(runId, rows[n], rows[n].run.stepId);
    hide ActionFor, ActsOn;
    if a in ActionFor(runId, rows[n]) {
      k := n;
    } else {
      k := ActionsAreOfRows(runId, rows[..n], a);
    }
  }

  lemma ListedOnce(rec: RunRecord)
    ensures ListedApart(LatestList(rec))
    ensures forall row :: row in LatestList(rec) <==>
              row.run.stepId in Latest(rec.steps) && Latest(rec.steps)[row.run.stepId] == row
  {
    LatestPicks(rec.steps);
    var ids := SortedIds(Latest(rec.steps).Keys);
    hide Latest, SortedIds;
    forall i | 0 <= i < |ids| ensures LatestList(rec)[i].run.stepId == ids[i] { assert ids[i] in ids; }
    forall row: StepRecord | row.run.stepId in Latest(rec.steps) && Latest(rec.steps)[row.run.stepId] == row
      ensures row in LatestList(rec) {
      assert row.run.stepId in ids;
      var i :| 0 <= i < |ids| && ids[i] == row.run.stepId;
      assert LatestList(rec)[i] == row;
    }
  }

  /** The plan of any record: exactly one action for each active latest attempt, none for the
      others, and nothing at all exactly when there are rows but none is active. */
  lemma PlanCovers(rec: RunRecord, id: StepId)
    ensures CountActions(PlanFor(rec), id) ==
            if id in Latest(rec.steps) && Latest(rec.steps)[id].run.status.IsActive() then 1 else 0
    ensures PlanFor(rec) == [] <==> rec.steps != [] && !SomeActive(RunStateOf(rec))
    ensures rec.steps == [] ==> PlanFor(rec) == [ReissueRunStarted(rec.runId)]
  {
    if rec.steps == [] {
      assert LatestList(rec) == [];
      assert PlanFor(rec) == [ReissueRunStarted(rec.runId)];
      assert PlanFor(rec)[..0] == [];
    } else {
      SomeActions(rec);
      ActionsCover(rec.runId, LatestList(rec), id) by { ListedOnce(rec); }
      GoingListed(rec, id);
      hide ActionsFor, Latest, SomeGoing, CountActions;
    }
  }

  /** A listed row of a step is going exactly when its latest attempt is active. */
  lemma GoingListed(rec: RunRecord, id: StepId)
    ensures SomeGoing(LatestList(rec), id) <==> id in Latest(rec.steps) && Latest(rec.steps)[id].run.status.IsActive()
  {
    ListedOnce(rec);
    LatestPicks(rec.steps);
    hide Latest, ListedApart, InOrder, LatestList;
    var rows := LatestList(rec);
    if SomeGoing(rows, id) {
      var i :| 0 <= i < |rows| && Going(rows[i], id);
      assert rows[i] in rows;
    }
    if id in Latest(rec.steps) && Latest(rec.steps)[id].run.status.IsActive() {
      assert Latest(rec.steps)[id] in rows;
      var i :| 0 <= i < |rows| && rows[i] == Latest(rec.steps)[id];
      assert Going(rows[i], id);
    }
  }

  lemma SomeActions(rec: RunRecord)
    requires rec.steps != []
    ensures PlanFor(rec) == [] <==> !SomeActive(RunStateOf(rec))
  {
    ListedOnce(rec);
    if SomeActive(RunStateOf(rec)) {
      var id :| id in Latest(rec.steps) && Latest(rec.steps)[id].run.status.IsActive();
      ActionsCover(rec.runId, LatestList(rec), id);
      GoingListed(rec, id);
    } else {
      var rows := LatestList(rec);
      forall row | row in rows ensures !row.run.status.IsActive() {
        assert RunStateOf(rec).steps[row.run.stepId] == row.run;
      }
      NoActions(rec.runId, rows);
    }
  }

  lemma {:induction false} NoActions(runId: RunId, rows: seq<StepRecord>)
    requires forall row :: row in rows ==> !row.run.status.IsActive()
    ensures ActionsFor(runId, rows) == []
  {
    if rows != [] {
      var n := |rows| - 1;
      assert rows[n] in rows;
      NoActions(runId, rows[..n]);
    }
  }

  /** What the plan does about a step whose latest attempt is active, by the handle saved for it
      and by nothing else. */
  ghost predicate Recovered(rec: RunRecord, v: RunView, actions: seq<Action>, step: StepId) {
    step in Latest(rec.steps) &&
    var run := Latest(rec.steps)[step].run;
    if run.status.Running? then
      && (forall job :: ReattachStep(rec.runId, step, run.attempt, job) in PlanFor(rec)
                        <==> Saved(v, actions, step, run.attempt, job))
      && (FailStep(rec.runId, step, run.attempt) in PlanFor(rec)
          <==> forall job :: !Saved(v, actions, step, run.attempt, job))
    else
      run.status.WaitingApproval? && LeaveWaitingApproval(rec.runId, step, run.attempt) in PlanFor(rec)
  }

  /** No orphan: wherever a history stops, between any two batches, a run still marked Running
      gets exactly one action for each active latest attempt, and at least one action. A Running
      attempt is reattached to the handle last saved for it, and failed exactly when none was; an
      attempt that waits for approval is left waiting. */
  lemma NoOrphan(id: RunId, new_: NewRun, actions: seq<Action>, step: StepId)
    requires History(NewView(id, new_), actions)
    requires StoredAfter(NewView(id, new_), actions).rec.phase == RunPhase.Running
    ensures var rec := StoredAfter(NewView(id, new_), actions).rec;
            && PlanFor(rec) != [] && rec.runId == id
            && (rec.steps == [] ==> PlanFor(rec) == [ReissueRunStarted(id)])
            && CountActions(PlanFor(rec), step) ==
               (if step in Latest(rec.steps) && Latest(rec.steps)[step].run.status.IsActive() then 1 else 0)
            && (step in Latest(rec.steps) && Latest(rec.steps)[step].run.status.IsActive() ==>
                  Recovered(rec, NewView(id, new_), actions, step))
  {
    hide *;
    var v := NewView(id, new_);
    var rec := StoredAfter(v, actions).rec;
    AttemptsStay(id, new_, actions, 0, step, 0);
    StillActs(id, new_, actions);
    PlanCovers(rec, step);
    if step in Latest(rec.steps) && Latest(rec.steps)[step].run.status.IsActive() {
      var row := Latest(rec.steps)[step];
      LatestPicks(rec.steps);
      HandleSaved(id, new_, actions, row);
      ActiveWritten(id, new_, actions, row);
      RecoversRow(rec, v, actions, step);
    }
  }

  lemma StillActs(id: RunId, new_: NewRun, actions: seq<Action>)
    requires History(NewView(id, new_), actions)
    requires StoredAfter(NewView(id, new_), actions).rec.phase == RunPhase.Running
    ensures PlanFor(StoredAfter(NewView(id, new_), actions).rec) != []
  {
    hide *;
    var rec := StoredAfter(NewView(id, new_), actions).rec;
    StoredRunAgrees(id, new_, actions);
    PlanCovers(rec, "");
  }

  lemma ActiveWritten(id: RunId, new_: NewRun, actions: seq<Action>, row: StepRecord)
    requires History(NewView(id, new_), actions) && row in StoredAfter(NewView(id, new_), actions).rec.steps
    requires row.run.status.IsActive()
    ensures row.run.status.Running? || row.run.status.WaitingApproval?
  {
    StoredAttempts(id, new_, actions, StoredAfter(NewView(id, new_), actions).rec.steps);
    hide StoredAfter, History, NewView, Latest, UniqueKeys, HasAttempt;
  }

  lemma RecoversRow(rec: RunRecord, v: RunView, actions: seq<Action>, step: StepId)
    requires step in Latest(rec.steps) && Latest(rec.steps)[step].run.stepId == step
    requires var run := Latest(rec.steps)[step].run; run.status.Running? || run.status.WaitingApproval?
    requires var row := Latest(rec.steps)[step];
             forall job :: row.jobId == Some(job) <==> Saved(v, actions, step, row.run.attempt, job)
    ensures Recovered(rec, v, actions, step)
  {
    hide *;
    var row := Latest(rec.steps)[step];
    var n := row.run.attempt;
    forall job ensures ReattachStep(rec.runId, step, n, job) in PlanFor(rec) <==>
                         CallsFor(rec.runId, row, ReattachStep(rec.runId, step, n, job))
    {
      PlanCalled(rec, ReattachStep(rec.runId, step, n, job));
    }
    PlanCalled(rec, FailStep(rec.runId, step, n));
    PlanCalled(rec, LeaveWaitingApproval(rec.runId, step, n));
    RowCalls(rec.runId, row);
    if row.jobId.Some? { assert Saved(v, actions, step, n, row.jobId.value); }
    RecoveredBy(rec, v, actions, step);
  }

  lemma PlanCalled(rec: RunRecord, a: RecoveryAction)
    requires !a.ReissueRunStarted? && a.stepId in Latest(rec.steps)
    ensures a in PlanFor(rec) <==> CallsFor(rec.runId, Latest(rec.steps)[a.stepId], a)
  {
    hide *;
    PlanDue(rec, a);
    DueIs(rec, a);
  }

  lemma RowCalls(runId: RunId, row: StepRecord)
    ensures row.run.status.Running? ==>
              && (forall job :: CallsFor(runId, row, ReattachStep(runId, row.run.stepId, row.run.attempt, job))
                                <==> row.jobId == Some(job))
              && (CallsFor(runId, row, FailStep(runId, row.run.stepId, row.run.attempt)) <==> row.jobId == None)
    ensures row.run.status.WaitingApproval? ==>
              CallsFor(runId, row, LeaveWaitingApproval(runId, row.run.stepId, row.run.attempt))
  {
  }

  lemma RecoveredBy(rec: RunRecord, v: RunView, actions: seq<Action>, step: StepId)
    requires step in Latest(rec.steps)
    requires var run := Latest(rec.steps)[step].run;
             if run.status.Running? then
               && (forall job :: ReattachStep(rec.runId, step, run.attempt, job) in PlanFor(rec)
                                 <==> Saved(v, actions, step, run.attempt, job))
               && (FailStep(rec.runId, step, run.attempt) in PlanFor(rec)
                   <==> forall job :: !Saved(v, actions, step, run.attempt, job))
             else run.status.WaitingApproval? && LeaveWaitingApproval(rec.runId, step, run.attempt) in PlanFor(rec)
    ensures Recovered(rec, v, actions, step)
  {
    hide PlanFor, Latest, Saved;
  }
}
