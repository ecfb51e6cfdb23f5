/** Whole runs of a fan-out and fan-in flow: whatever the interleaving, a run that has
    stopped has completed every step it was led to exactly once, and nothing else. */
module FanInRuns {
  import opened Wrappers
  import opened FlowTypes
  import opened Template
  import opened RunTypes
  import opened Engine
  import opened Store
  import opened Core
  import opened Machine
  import opened Invariants
  import opened Confluence
  import Dag

  // ----- steady states ------------------------------------------------------------------

  lemma NothingSteady(flow: Flow)
    ensures Steady(flow, map[])
  {
    forall id | HasFeeder(flow, id) ensures !FeedersDone(flow, map[], id) {
      var s :| Feeds(flow, s, id);
      assert !Done(map[], s);
    }
  }

  /** The steps whose job has reported, and those that a person has approved. */
  function Reported(steps: Steps): set<StepId> {
    set id | id in steps && (Done(steps, id) || HasWaiting(steps, id))
  }

  function Approved(flow: Flow, steps: Steps): set<StepId> {
    set id | id in steps && Done(steps, id) && flow.Defined(id) && flow.StepOf(id).value.humanLoop
  }

  predicate Reports(m: Move) {
    m.Did? && m.event.StepCompleted?
  }

  predicate Approves(m: Move) {
    m.Did? && m.event.StepApproved?
  }

  /** What a happy move adds to the reported and approved steps: at most its own step, and
      always a new one. */
  ghost predicate Adds(flow: Flow, before: Steps, m: Move, after: Steps) {
    && Reported(after) == Reported(before) + (if Reports(m) then {m.event.stepId} else {})
    && Approved(flow, after) == Approved(flow, before) + (if Approves(m) then {m.event.stepId} else {})
    && (Reports(m) ==> m.event.stepId !in Reported(before))
    && (Approves(m) ==> m.event.stepId !in Approved(flow, before))
  }

  lemma AddsFromRows(flow: Flow, before: Steps, m: Move, after: Steps)
    requires Reports(m) || Approves(m)
    requires flow.Defined(m.event.stepId)
    requires var id := m.event.stepId;
             && id in before && id in after && !Done(before, id)
             && (Reports(m) ==> !HasWaiting(before, id))
             && (Approves(m) ==> HasWaiting(before, id) && flow.StepOf(id).value.humanLoop)
             && (forall x :: Done(after, x) <==>
                 Done(before, x) || (x == id && (Approves(m) || !flow.StepOf(id).value.humanLoop)))
             && (forall x :: HasWaiting(after, x) <==>
                 (HasWaiting(before, x) && x != id) || (x == id && Reports(m) && flow.StepOf(id).value.humanLoop))
    ensures Adds(flow, before, m, after)
  {
    var id := m.event.stepId;
    hide Done, HasWaiting;
    forall x ensures x in Reported(after) <==> x in Reported(before) || (Reports(m) && x == id) {
      RowOf(before, x);
      RowOf(after, x);
    }
    forall x ensures x in Approved(flow, after) <==> x in Approved(flow, before) || (Approves(m) && x == id) {
      RowOf(before, x);
      RowOf(after, x);
    }
  }

  lemma RowOf(steps: Steps, id: StepId)
    ensures Done(steps, id) || HasWaiting(steps, id) ==> id in steps
    ensures !(Done(steps, id) && HasWaiting(steps, id))
  {
  }

  lemma HappyMoveKeeps(flow: Flow, r: Run, m: Move)
    requires FanIn(flow) && Steady(flow, r.state.steps) && NoVerdictYet(r.state.steps)
    requires CanMove(flow, r, m) && HappyMove(flow, r, m)
    ensures Steady(flow, Moved(flow, r, m).state.steps)
    ensures Adds(flow, r.state.steps, m, Moved(flow, r, m).state.steps)
  {
    match m {
      case Logged(_) =>
      case Did(event, j) =>
        var e := Transition(flow, r.state, event).value;
        hide Transition, FanIn, Steady, NoVerdictYet, After, Adds;
        if event.RunStarted? {
          StartKeepsSteady(flow, r, e);
          StartAdds(flow, r.state.steps, m, After(r, e, j).state.steps);
        } else {
          SettleAdds(flow, r, event, e);
        }
    }
  }

  lemma StartAdds(flow: Flow, before: Steps, m: Move, after: Steps)
    requires before == map[] && !Reports(m) && !Approves(m)
    requires forall x :: !Done(after, x) && !HasWaiting(after, x)
    ensures Adds(flow, before, m, after)
  {
  }

  lemma SettleAdds(flow: Flow, r: Run, event: Event, e: Effect)
    requires FanIn(flow) && Steady(flow, r.state.steps) && NoVerdictYet(r.state.steps)
    requires event.StepCompleted? || event.StepApproved?
    requires Enabled(r.state, event) && Transition(flow, r.state, event) == Ok(e)
    ensures Steady(flow, After(r, e, |e.activations|).state.steps)
    ensures Adds(flow, r.state.steps, Did(event, |e.activations|), After(r, e, |e.activations|).state.steps)
  {
    hide Transition, FanIn, NoVerdictYet, After, Adds, NothingEarly, NothingMissed, Done, HasWaiting;
    var id, before, m := event.stepId, r.state.steps, Did(event, |e.activations|);
    RowKnown(flow, r.state, event);
    if event.StepCompleted? && flow.StepOf(id).value.humanLoop {
      WaitingKeepsSteady(flow, r, event, e);
    } else {
      SettlingKeepsSteady(flow, r, event, e);
    }
    var after := After(r, e, |e.activations|).state.steps;
    RowOf(after, id);
    AddsFromRows(flow, before, m, after);
  }

  lemma RowKnown(flow: Flow, state: RunState, event: Event)
    requires FirstAttempts(flow, state.steps) && Enabled(state, event)
    requires event.StepCompleted? || event.StepApproved?
    ensures flow.Defined(event.stepId) && event.stepId in state.steps && !Done(state.steps, event.stepId)
    ensures event.StepCompleted? ==> !HasWaiting(state.steps, event.stepId)
    ensures event.StepApproved? ==> HasWaiting(state.steps, event.stepId) && flow.StepOf(event.stepId).value.humanLoop
  {
  }

  // ----- whole runs ---------------------------------------------------------------------

  function CountReports(moves: seq<Move>): nat {
    if moves == [] then 0 else CountReports(moves[..|moves| - 1]) + (if Reports(moves[|moves| - 1]) then 1 else 0)
  }

  function CountApprovals(moves: seq<Move>): nat {
    if moves == [] then 0 else CountApprovals(moves[..|moves| - 1]) + (if Approves(moves[|moves| - 1]) then 1 else 0)
  }

  /** In every run without failures a step has at most one row, a first attempt, and it has
      it only once all its feeders are done; and each completion and each approval the run
      took is of a different step. */
  lemma {:induction false} HappyPlaySteady(new_: NewRun, moves: seq<Move>)
    requires FanIn(new_.definition) && HappyPlay(new_.definition, NewPlay(new_), moves)
    ensures var steps := Play(new_.definition, NewPlay(new_), moves).state.steps;
            && Steady(new_.definition, steps)
            && CountReports(moves) == |Reported(steps)|
            && CountApprovals(moves) == |Approved(new_.definition, steps)|
  {
    hide FanIn, Steady, CanMove, HappyMove, Moved, Adds, Reported, Approved;
    var flow, start := new_.definition, NewPlay(new_);
    if moves == [] {
      NothingSteady(flow);
      NothingAdded(flow);
    } else {
      var n := |moves| - 1;
      HappyPlaySteady(new_, moves[..n]);
      HappyIsPlayable(flow, start, moves[..n]);
      PlayInvariant(new_, moves[..n]);
      var r := Play(flow, start, moves[..n]);
      HappyMoveKeeps(flow, r, moves[n]);
      AddsCounts(flow, r.state.steps, moves[n], Moved(flow, r, moves[n]).state.steps);
    }
  }

  lemma NothingAdded(flow: Flow)
    ensures Reported(map[]) == {} && Approved(flow, map[]) == {}
  {
  }

  lemma AddsCounts(flow: Flow, before: Steps, m: Move, after: Steps)
    requires Adds(flow, before, m, after)
    ensures |Reported(after)| == |Reported(before)| + (if Reports(m) then 1 else 0)
    ensures |Approved(flow, after)| == |Approved(flow, before)| + (if Approves(m) then 1 else 0)
  {
  }

  /** A run that has started and has nothing left to wait for. */
  predicate Quiet(r: Run) {
    r.state.steps != map[] && !SomeActive(r.state)
  }

  /** Confluence: whatever order completions and approvals arrived in, a run that has gone
      quiet is Completed, every step it reached is completed on its first attempt, those steps
      are the least set that holds the entries and every step all of whose feeders are in it,
      and it took one completion per step and one approval per human step. */
  lemma QuietRunsAgree(new_: NewRun, moves: seq<Move>)
    requires FanIn(new_.definition) && HappyPlay(new_.definition, NewPlay(new_), moves)
    requires Quiet(Play(new_.definition, NewPlay(new_), moves))
    ensures var r := Play(new_.definition, NewPlay(new_), moves);
            && r.phase == RunPhase.Completed
            && (forall id :: id in r.state.steps ==>
                r.state.steps[id].status.Completed? && r.state.steps[id].attempt == 1)
            && LeastFires(new_.definition, r.state.steps.Keys)
            && CountReports(moves) == |r.state.steps.Keys|
            && CountApprovals(moves) == |HumanSteps(new_.definition, r.state.steps.Keys)|
  {
    var flow := new_.definition;
    var r := Play(flow, NewPlay(new_), moves);
    hide FanIn, HappyPlay, CanMove, Invariant, Steady, LeastFires;
    HappyPlaySteady(new_, moves);
    HappyIsPlayable(flow, NewPlay(new_), moves);
    PlayInvariant(new_, moves);
    PhaseIsDerived(new_, moves);
    QuietCompleted(flow, r);
    QuietLeast(flow, r.state.steps);
    QuietCounts(flow, r.state.steps);
  }

  function HumanSteps(flow: Flow, ids: set<StepId>): set<StepId> {
    set id | id in ids && flow.Defined(id) && flow.StepOf(id).value.humanLoop
  }

  lemma QuietCompleted(flow: Flow, r: Run)
    requires Steady(flow, r.state.steps) && Invariant(flow, r) && PhaseDerived(r) && Quiet(r)
    ensures r.phase == RunPhase.Completed
    ensures forall id :: id in r.state.steps ==> r.state.steps[id].status.Completed? && r.state.steps[id].attempt == 1
  {
    hide NothingEarly, NothingMissed, RowsSound, NoVerdictYet, FailuresSpent, LogAgrees, EndsOnce;
  }

  lemma QuietLeast(flow: Flow, steps: Steps)
    requires Steady(flow, steps) && steps != map[]
    requires forall id :: id in steps ==> steps[id].status.Completed?
    ensures LeastFires(flow, steps.Keys)
  {
    forall id | Fires(flow, steps.Keys, id) ensures id in steps {
      if !IsEntry(flow, id) {
        assert forall s :: Feeds(flow, s, id) ==> Done(steps, s);
        assert FeedersDone(flow, steps, id);
      }
    }
  }

  lemma QuietCounts(flow: Flow, steps: Steps)
    requires forall id :: id in steps ==> steps[id].status.Completed?
    ensures Reported(steps) == steps.Keys && Approved(flow, steps) == HumanSteps(flow, steps.Keys)
  {
    assert forall id :: id in steps ==> Done(steps, id);
  }

  lemma LeastFiresUnique(flow: Flow, a: set<StepId>, b: set<StepId>)
    requires LeastFires(flow, a) && LeastFires(flow, b)
    ensures a == b
  {
    assert a <= b && b <= a;
  }

  /** Any two quiet runs of one definition completed the same steps with the same number of
      events, however their events interleaved. */
  lemma Confluent(new1: NewRun, new2: NewRun, moves1: seq<Move>, moves2: seq<Move>)
    requires new1.definition == new2.definition && FanIn(new1.definition)
    requires HappyPlay(new1.definition, NewPlay(new1), moves1) && Quiet(Play(new1.definition, NewPlay(new1), moves1))
    requires HappyPlay(new2.definition, NewPlay(new2), moves2) && Quiet(Play(new2.definition, NewPlay(new2), moves2))
    ensures Play(new1.definition, NewPlay(new1), moves1).state.steps.Keys
            == Play(new2.definition, NewPlay(new2), moves2).state.steps.Keys
    ensures CountReports(moves1) == CountReports(moves2) && CountApprovals(moves1) == CountApprovals(moves2)
  {
    hide *;
    QuietRunsAgree(new1, moves1);
    QuietRunsAgree(new2, moves2);
    LeastFiresUnique(new1.definition, Play(new1.definition, NewPlay(new1), moves1).state.steps.Keys,
                     Play(new2.definition, NewPlay(new2), moves2).state.steps.Keys);
  }

  // ----- progress -----------------------------------------------------------------------

  /** The run can take no more completions and approvals than the flow has steps, each. */
  lemma HappyRunsAreShort(new_: NewRun, moves: seq<Move>)
    requires FanIn(new_.definition) && HappyPlay(new_.definition, NewPlay(new_), moves)
    ensures CountReports(moves) <= |StepIds(new_.definition)|
    ensures CountApprovals(moves) <= CountReports(moves)
  {
    hide FanIn, HappyPlay, Play, NothingEarly, NothingMissed;
    HappyPlaySteady(new_, moves);
    var flow, steps := new_.definition, Play(new_.definition, NewPlay(new_), moves).state.steps;
    assert Reported(steps) <= StepIds(flow) && Approved(flow, steps) <= Reported(steps);
    Dag.SubsetSize(Reported(steps), StepIds(flow));
    Dag.SubsetSize(Approved(flow, steps), Reported(steps));
  }

  predicate BadInput(flow: Flow, ctx: TemplateContext, target: StepId) {
    target != DONE && flow.Defined(target) && ResolveInput(flow.StepOf(target).value, ctx).Err?
  }

  /** The event that a step with a row is waiting for. */
  function Awaited(steps: Steps, id: StepId): Event
    requires id in steps
  {
    if steps[id].status.Running? then Event.StepCompleted(id, JNULL) else Event.StepApproved(id, None)
  }

  /** The event can happen now; the engine accepts it and the run stays happy, or refuses it
      for an input that does not resolve. */
  ghost predicate GoesOn(flow: Flow, start: Run, moves: seq<Move>, event: Event) {
    var r := Play(flow, start, moves);
    && Happy(event) && Enabled(r.state, event)
    && if Transition(flow, r.state, event).Ok?
       then HappyPlay(flow, start, moves + [Did(event, |Transition(flow, r.state, event).value.activations|)])
       else exists t ::
             t in TargetsOf(flow, r.state, event)
             && BadInput(flow, BuildContext(flow, Considered(r.state, event)), t)
  }

  /** A happy run that is still Running waits for something, and when that happens the run
      goes on; only an input template that does not resolve can refuse it. */
  lemma NeverStuck(new_: NewRun, moves: seq<Move>) returns (event: Event)
    requires FanIn(new_.definition) && HappyPlay(new_.definition, NewPlay(new_), moves)
    requires Play(new_.definition, NewPlay(new_), moves).phase == RunPhase.Running
    ensures GoesOn(new_.definition, NewPlay(new_), moves, event)
  {
    var flow, r := new_.definition, Play(new_.definition, NewPlay(new_), moves);
    hide *;
    HappyPlaySteady(new_, moves);
    HappyIsPlayable(flow, NewPlay(new_), moves);
    PlayInvariant(new_, moves);
    SteadyParts(flow, r.state.steps);
    event := SomethingAwaited(flow, r);
    if Transition(flow, r.state, event).Ok? {
      HappySnoc(flow, NewPlay(new_), moves, event);
    } else {
      RefusedByInput(flow, r.state, event);
    }
    NowGoesOn(flow, NewPlay(new_), moves, event);
  }

  lemma NowGoesOn(flow: Flow, start: Run, moves: seq<Move>, event: Event)
    requires var r := Play(flow, start, moves);
             && Happy(event) && Enabled(r.state, event)
             && if Transition(flow, r.state, event).Ok?
                then HappyPlay(flow, start, moves + [Did(event, |Transition(flow, r.state, event).value.activations|)])
                else exists t ::
                      t in TargetsOf(flow, r.state, event)
                      && BadInput(flow, BuildContext(flow, Considered(r.state, event)), t)
    ensures GoesOn(flow, start, moves, event)
  {
  }

  lemma SomethingAwaited(flow: Flow, r: Run) returns (event: Event)
    requires FirstAttempts(flow, r.state.steps) && Invariant(flow, r) && r.phase == RunPhase.Running
    ensures Happy(event) && Enabled(r.state, event)
  {
    hide NoVerdictYet, FailuresSpent, LogAgrees, EndsOnce, RowsSound;
    if r.state.steps == map[] {
      event := Event.RunStarted;
    } else {
      var id :| id in r.state.steps && r.state.steps[id].status.IsActive();
      event := Awaited(r.state.steps, id);
    }
  }

  lemma HappySnoc(flow: Flow, start: Run, moves: seq<Move>, event: Event)
    requires HappyPlay(flow, start, moves) && Happy(event)
    requires var r := Play(flow, start, moves);
             r.phase == RunPhase.Running && Enabled(r.state, event) && Transition(flow, r.state, event).Ok?
    ensures HappyPlay(flow, start,
                      moves + [Did(event, |Transition(flow, Play(flow, start, moves).state, event).value.activations|)])
  {
    var m := Did(event, |Transition(flow, Play(flow, start, moves).state, event).value.activations|);
    hide Transition;
    assert (moves + [m])[..|moves|] == moves;
  }

  lemma RefusedByInput(flow: Flow, state: RunState, event: Event)
    requires FanIn(flow) && FirstAttempts(flow, state.steps)
    requires Happy(event) && Enabled(state, event) && Transition(flow, state, event).Err?
    ensures exists t ::
              t in TargetsOf(flow, state, event)
              && BadInput(flow, BuildContext(flow, Considered(state, event)), t)
  {
    hide BadInput, Refuses, ResolveInput, BuildContext, AllTerminal, Phase, Unreached, ActivateTargets;
    var targets := TargetsOf(flow, state, event);
    forall t | t in targets && t != DONE ensures flow.Defined(t) {
      if event.RunStarted? {
        Dag.EntryHasNoForwardSource(flow, t);
      } else {
        assert Feeds(flow, event.stepId, t);
      }
    }
    RefusedState(flow, state, event);
    var next := Considered(state, event);
    RefusedTargets(flow, next, BuildContext(flow, next), targets);
    var t :| t in targets && Refuses(flow, next, BuildContext(flow, next), t);
    RefusedInput(flow, next, BuildContext(flow, next), t);
  }

  lemma RefusedInput(flow: Flow, state: RunState, ctx: TemplateContext, t: StepId)
    requires Refuses(flow, state, ctx, t) && (t != DONE ==> flow.Defined(t))
    ensures BadInput(flow, ctx, t)
  {
  }

  lemma RefusedState(flow: Flow, state: RunState, event: Event)
    requires FirstAttempts(flow, state.steps)
    requires Happy(event) && Enabled(state, event) && Transition(flow, state, event).Err?
    ensures var next := Considered(state, event);
            ActivateTargets(flow, next, BuildContext(flow, next), TargetsOf(flow, state, event)).Err?
  {
    hide ResolveInput, BuildContext, AllTerminal, Phase, Unreached, ActivateTargets, Upsert;
  }
}
