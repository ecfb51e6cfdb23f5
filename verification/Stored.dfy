/** What the store holds for a run, at every batch boundary of every history. */
module Stored {
  import opened RunTypes
  import opened Ports
  import opened Store
  import opened Rows
  import opened Core
  import opened Refinement
  import opened Machine
  import opened Invariants

  /** Every history of the store shows a reachable state of the run. */
  lemma StoredInvariant(id: RunId, new_: NewRun, actions: seq<Action>) returns (r: Run)
    requires History(NewView(id, new_), actions)
    ensures Shows(StoredAfter(NewView(id, new_), actions), new_.definition, r) && Invariant(new_.definition, r)
  {
    NewShows(id, new_);
    NewInvariant(new_);
    var moves := Simulates(NewView(id, new_), new_.definition, NewPlay(new_), actions);
    PlayInvariant(new_, moves);
    r := Play(new_.definition, NewPlay(new_), moves);
  }

  /** The phase and the log of a stored run agree with its rows: Running exactly while a
      latest attempt is active, sequences 1, 2, 3, ..., one end record exactly when the run
      is over, and for each step the last record about it is that of its latest status. */
  lemma StoredRunAgrees(id: RunId, new_: NewRun, actions: seq<Action>)
    requires History(NewView(id, new_), actions)
    ensures var v := StoredAfter(NewView(id, new_), actions);
            && (v.rec.steps != [] ==> (v.rec.phase == RunPhase.Running <==> SomeActive(RunStateOf(v.rec))))
            && (forall i :: 0 <= i < |v.log| ==> v.log[i].sequence == i + 1)
            && CountEnds(Trail(v.log)) == (if v.rec.phase == RunPhase.Running then 0 else 1)
            && (forall step :: step in RunStateOf(v.rec).steps && !RunStateOf(v.rec).steps[step].status.Cancelled? ==>
                  LastSaid(Trail(v.log), step) == SaidBy(RunStateOf(v.rec).steps[step].status))
  {
    var v := StoredAfter(NewView(id, new_), actions);
    var r := StoredInvariant(id, new_, actions);
    ShownState(v, new_.definition, r);
    if v.rec.steps != [] { assert v.rec.steps[0] in v.rec.steps && v.rec.steps[0].run.stepId in r.state.steps; }
  }

  /** The rows of each step are its attempts 1 to k, each once, with statuses that are
      written, and the engine sees attempt k, whatever the order of the rows. */
  lemma StoredAttempts(id: RunId, new_: NewRun, actions: seq<Action>, shuffled: seq<StepRecord>)
    requires History(NewView(id, new_), actions)
    requires forall row :: row in shuffled <==> row in StoredAfter(NewView(id, new_), actions).rec.steps
    ensures var rows := StoredAfter(NewView(id, new_), actions).rec.steps;
            && UniqueKeys(rows)
            && (forall row :: row in rows ==> Written(row.run.status) && row.run.attempt >= 1)
            && Latest(shuffled) == Latest(rows)
            && (forall row :: row in rows ==> row.run.stepId in Latest(rows))
            && (forall step, b: nat {:trigger HasAttempt(rows, step, b)} :: step in Latest(rows) ==>
                  (HasAttempt(rows, step, b) <==> 1 <= b <= Latest(rows)[step].run.attempt))
  {
    var v := StoredAfter(NewView(id, new_), actions);
    var rows := v.rec.steps;
    var r := StoredInvariant(id, new_, actions);
    RepresentsLatest(rows, r.state.steps);
    LatestPicks(rows);
    LatestIgnoresOrder(rows, shuffled);
    forall step, b: nat {:trigger HasAttempt(rows, step, b)} | step in Latest(rows)
      ensures HasAttempt(rows, step, b) <==> 1 <= b <= Latest(rows)[step].run.attempt
    {
      assert r.state.steps[step] == Latest(rows)[step].run;
    }
  }
}
