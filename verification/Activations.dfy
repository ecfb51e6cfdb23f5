/** How often steps are activated. The trail holds one record per activation, so it shows what
    the rows hide: a step listed twice on the route that opens its gate is started twice. */
module Activations {
  import opened Wrappers
  import opened FlowTypes
  import opened Template
  import opened RunTypes
  import opened Engine
  import opened Ports
  import opened Store
  import opened Core
  import opened Machine
  import opened Invariants
  import opened Confluence
  import opened FanInRuns
  import Dag

  // ----- counting -----------------------------------------------------------------------

  predicate NotesStart(e: RunEventRecord, id: StepId) {
    e.eventType.StepActivated? && e.stepId == Some(id)
  }

  /** How many activations of a step the trail records. */
  function Activated(trail: seq<RunEventRecord>, id: StepId): nat {
    if trail == [] then 0
    else
      var n := |trail| - 1;
      Activated(trail[..n], id) + (if NotesStart(trail[n], id) then 1 else 0)
  }

  function ActTimes(acts: seq<StepActivation>, id: StepId): nat {
    if acts == [] then 0
    else
      var n := |acts| - 1;
      ActTimes(acts[..n], id) + (if acts[n].stepId == id then 1 else 0)
  }

  lemma {:induction false} ActivatedConcat(a: seq<RunEventRecord>, b: seq<RunEventRecord>, id: StepId)
    ensures Activated(a + b, id) == Activated(a, id) + Activated(b, id)
    decreases |b|
  {
    if b == [] {
      assert a + b == a;
    } else {
      var n := |b| - 1;
      assert (a + b)[..|a + b| - 1] == a + b[..n];
      ActivatedConcat(a, b[..n], id);
    }
  }

  lemma {:induction false} ActNotesActivate(acts: seq<StepActivation>, id: StepId)
    ensures Activated(ActNotes(acts), id) == ActTimes(acts, id)
  {
    if acts != [] {
      var n := |acts| - 1;
      ActNotesActivate(acts[..n], id);
      var before := ActNotes(acts[..n]);
      var e := RunEventRecord(StepActivated, Some(acts[n].stepId));
      assert (before + [e])[..|before|] == before;
    }
  }

  lemma OtherNotes(mark: Option<Mark>, finish: Option<RunPhase>, id: StepId)
    ensures Activated(MarkNotes(mark), id) == 0 && Activated(EndNotes(finish), id) == 0
  {
    if MarkNotes(mark) != [] { assert MarkNotes(mark) == [MarkNotes(mark)[0]] && [MarkNotes(mark)[0]][..0] == []; }
    if EndNotes(finish) != [] { assert EndNotes(finish) == [EndNotes(finish)[0]] && [EndNotes(finish)[0]][..0] == []; }
  }

  lemma AfterActivated(r: Run, e: Effect, j: nat, id: StepId)
    requires j <= |e.activations|
    ensures Activated(After(r, e, j).trail, id) == Activated(r.trail, id) + ActTimes(e.activations[..j], id)
  {
    hide Activated, ActNotes, MarkNotes, EndNotes;
    var acts := e.activations[..j];
    OtherNotes(e.mark, e.finish, id);
    ActNotesActivate(acts, id);
    ActivatedConcat(r.trail, MarkNotes(e.mark), id);
    ActivatedConcat(r.trail + MarkNotes(e.mark), ActNotes(acts), id);
    ActivatedConcat(r.trail + MarkNotes(e.mark) + ActNotes(acts), EndNotes(e.finish), id);
  }

  lemma {:induction false} ActTimesConcat(a: seq<StepActivation>, b: seq<StepActivation>, id: StepId)
    ensures ActTimes(a + b, id) == ActTimes(a, id) + ActTimes(b, id)
    decreases |b|
  {
    if b == [] {
      assert a + b == a;
    } else {
      var n := |b| - 1;
      assert (a + b)[..|a + b| - 1] == a + b[..n];
      ActTimesConcat(a, b[..n], id);
    }
  }

  lemma {:induction false} TimesConcat(a: seq<StepId>, b: seq<StepId>, id: StepId)
    ensures Times(a + b, id) == Times(a, id) + Times(b, id)
    decreases |b|
  {
    if b == [] {
      assert a + b == a;
    } else {
      var n := |b| - 1;
      assert (a + b)[..|a + b| - 1] == a + b[..n];
      TimesConcat(a, b[..n], id);
    }
  }

  lemma {:induction false} ActTimesMembers(acts: seq<StepActivation>, id: StepId)
    ensures ActTimes(acts, id) > 0 <==> id in ActIds(acts)
  {
    if acts != [] {
      var n := |acts| - 1;
      ActTimesMembers(acts[..n], id);
      ActIdsSnoc(acts, n);
      assert acts[..n + 1] == acts;
    } else {
      assert forall x :: x !in ActIds(acts);
    }
  }

  /** A target with an open gate is activated as often as it is listed, and no other is. */
  lemma {:induction false} TargetsActivated(flow: Flow, state: RunState, ctx: TemplateContext, targets: seq<StepId>,
                                            id: StepId)
    requires ActivateTargets(flow, state, ctx, targets).Ok?
    ensures ActTimes(ActivateTargets(flow, state, ctx, targets).value, id) ==
            if id != DONE && flow.Defined(id) && NeedsSatisfied(flow, state, flow.StepOf(id).value)
            then Times(targets, id) else 0
  {
    hide NeedsSatisfied, ResolveInput;
    if targets != [] {
      var rest := targets[1..];
      TargetsActivated(flow, state, ctx, rest, id);
      assert targets == [targets[0]] + rest;
      TimesConcat([targets[0]], rest, id);
      assert [targets[0]][..0] == [] && Times([targets[0]], id) == if targets[0] == id then 1 else 0;
      var one := ActivateOne(flow, state, ctx, targets[0]).value;
      ActTimesConcat(one, ActivateTargets(flow, state, ctx, rest).value, id);
      if one != [] { assert one == [one[0]] && one[..0] == []; }
    }
  }

  // ----- one move -----------------------------------------------------------------------

  /** A routed step that an effect activates is activated as often as the route lists it. */
  lemma EffectActivates(flow: Flow, r: Run, event: Event, e: Effect, id: StepId)
    requires Enabled(r.state, event) && NoVerdictYet(r.state.steps) && Transition(flow, r.state, event) == Ok(e)
    requires !Reruns(flow, r.state, event)
    ensures var n := |e.activations|; var after := After(r, e, n);
            && (id in after.state.steps <==> id in r.state.steps || id in ActIds(e.activations))
            && (id in ActIds(e.activations) ==>
                  id in TargetsOf(flow, r.state, event)
                  && Activated(after.trail, id) == Activated(r.trail, id) + Times(TargetsOf(flow, r.state, event), id))
            && (id !in ActIds(e.activations) ==> Activated(after.trail, id) == Activated(r.trail, id))
  {
    hide Transition, Enabled, NoVerdictYet, Ends, After, ActivateTargets, BuildContext, TargetsOf, Times, CancelIds,
         MarkedSteps, NeedsSatisfied, Reruns;
    var n := |e.activations|;
    assert e.activations[..n] == e.activations;
    AfterRows(flow, r, event, e, n);
    assert RowAfter(r.state.steps, event, e, n, After(r, e, n).state.steps, id);
    AfterActivated(r, e, n, id);
    TargetsActivated(flow, e.next, BuildContext(flow, e.next), TargetsOf(flow, r.state, event), id);
    ActTimesMembers(e.activations, id);
  }

  /** Whether a happy move gives a step its first row. */
  predicate Opening(before: Run, after: Run, id: StepId) {
    id !in before.state.steps && id in after.state.steps
  }

  /** In a fan-in flow only the move that gives a step its row activates it. */
  lemma MoveActivates(flow: Flow, r: Run, m: Move, id: StepId)
    requires FanIn(flow) && Steady(flow, r.state.steps) && NoVerdictYet(r.state.steps)
    requires CanMove(flow, r, m) && HappyMove(flow, r, m)
    ensures var after := Moved(flow, r, m);
            && (id in r.state.steps ==> id in after.state.steps)
            && (Opening(r, after, id) ==>
                  m.Did? && id in TargetsOf(flow, r.state, m.event)
                  && Activated(after.trail, id) == Activated(r.trail, id)
                      + Times(TargetsOf(flow, r.state, m.event), id))
            && (!Opening(r, after, id) ==> Activated(after.trail, id) == Activated(r.trail, id))
  {
    match m {
      case Logged(e) =>
        assert (r.trail + [e])[..|r.trail|] == r.trail;
      case Did(event, j) =>
        var e := Transition(flow, r.state, event).value;
        HappyNoRerun(flow, r.state, event);
        HappyFresh(flow, r, event, e, id);
        hide FanIn, Steady, NoVerdictYet, Enabled, Transition, After, TargetsOf, Reruns, ActIds;
        EffectActivates(flow, r, event, e, id);
    }
  }

  lemma HappyNoRerun(flow: Flow, state: RunState, event: Event)
    requires Happy(event)
    ensures !Reruns(flow, state, event)
  {
  }

  lemma NoActIds()
    ensures ActIds([]) == {}
  {
  }

  lemma StartsEmpty(state: RunState)
    requires Enabled(state, Event.RunStarted)
    ensures state.steps == map[]
  {
  }

  lemma HappyFresh(flow: Flow, r: Run, event: Event, e: Effect, id: StepId)
    requires FanIn(flow) && Steady(flow, r.state.steps) && NoVerdictYet(r.state.steps)
    requires Happy(event) && Enabled(r.state, event) && Transition(flow, r.state, event) == Ok(e)
    ensures id in r.state.steps ==> id !in ActIds(e.activations)
  {
    hide Transition, FanIn, NoVerdictYet, ActIds, NothingEarly, NothingMissed, Enabled, FirstAttempts;
    if event.RunStarted? {
      StartsEmpty(r.state);
    } else {
      RowKnown(flow, r.state, event);
      if event.StepCompleted? && flow.StepOf(event.stepId).value.humanLoop {
        WaitingShape(flow, r.state, event, e);
        NoActIds();
      } else {
        SettlingShape(flow, r.state, event, e);
        OpenedAreNew(flow, r.state.steps, e.next.steps, event.stepId, ActIds(e.activations));
      }
    }
  }

  // ----- whole runs ---------------------------------------------------------------------

  /** The `k`-th move of a play is the one that gave a step its row. */
  predicate OpenedAt(flow: Flow, start: Run, moves: seq<Move>, k: nat, id: StepId)
    requires k < |moves|
  {
    moves[k].Did? && Opening(Play(flow, start, moves[..k]), Play(flow, start, moves[..k + 1]), id)
  }

  /** The targets the `k`-th move followed. */
  function Followed(flow: Flow, start: Run, moves: seq<Move>, k: nat): seq<StepId>
    requires k < |moves| && moves[k].Did?
  {
    TargetsOf(flow, Play(flow, start, moves[..k]).state, moves[k].event)
  }

  ghost predicate ActivatedAs(flow: Flow, start: Run, moves: seq<Move>, k: nat, id: StepId) {
    k < |moves| && OpenedAt(flow, start, moves, k, id) && id in Followed(flow, start, moves, k)
    && Activated(Play(flow, start, moves).trail, id) == Times(Followed(flow, start, moves, k), id)
  }

  lemma ActivatedAsLonger(flow: Flow, start: Run, moves: seq<Move>, k: nat, id: StepId)
    requires moves != [] && ActivatedAs(flow, start, moves[..|moves| - 1], k, id)
    requires Activated(Play(flow, start, moves).trail, id)
             == Activated(Play(flow, start, moves[..|moves| - 1]).trail, id)
    ensures ActivatedAs(flow, start, moves, k, id)
  {
    var before := moves[..|moves| - 1];
    hide Play, Activated, TargetsOf, Opening;
    assert before[..k] == moves[..k] && before[..k + 1] == moves[..k + 1] && before[k] == moves[k];
  }

  /** In a run without failures, however it interleaves, a step that has a row was activated by
      exactly one event, as often as the route that event followed lists it; a step without a
      row was never activated. */
  lemma {:induction false} ActivatedAsListed(new_: NewRun, moves: seq<Move>, id: StepId) returns (k: nat)
    requires FanIn(new_.definition) && HappyPlay(new_.definition, NewPlay(new_), moves)
    ensures var flow, start := new_.definition, NewPlay(new_);
            if id in Play(flow, start, moves).state.steps
            then ActivatedAs(flow, start, moves, k, id)
            else Activated(Play(flow, start, moves).trail, id) == 0
    decreases |moves|
  {
    hide *;
    var flow, start := new_.definition, NewPlay(new_);
    k := 0;
    if moves == [] {
      NothingActivated(flow, new_, id);
    } else {
      var n := |moves| - 1;
      HappyLast(flow, start, moves);
      k := ActivatedAsListed(new_, moves[..n], id);
      HappyPlaySteady(new_, moves[..n]);
      HappyIsPlayable(flow, start, moves[..n]);
      PlayInvariant(new_, moves[..n]);
      VerdictsOpen(flow, Play(flow, start, moves[..n]));
      MoveActivates(flow, Play(flow, start, moves[..n]), moves[n], id);
      RowsStay(Play(flow, start, moves[..n]), Play(flow, start, moves), id);
      if id in Play(flow, start, moves[..n]).state.steps {
        ActivatedAsLonger(flow, start, moves, k, id);
      } else if id in Play(flow, start, moves).state.steps {
        k := n;
        ActivatedAsLast(flow, start, moves, id);
      }
    }
  }

  lemma NothingActivated(flow: Flow, new_: NewRun, id: StepId)
    ensures id !in Play(flow, NewPlay(new_), []).state.steps && Activated(Play(flow, NewPlay(new_), []).trail, id) == 0
  {
  }

  lemma HappyLast(flow: Flow, start: Run, moves: seq<Move>)
    requires HappyPlay(flow, start, moves) && moves != []
    ensures var n := |moves| - 1; var r := Play(flow, start, moves[..n]);
            && HappyPlay(flow, start, moves[..n]) && CanMove(flow, r, moves[n]) && HappyMove(flow, r, moves[n])
            && Play(flow, start, moves) == Moved(flow, r, moves[n])
  {
    hide CanMove, HappyMove, Moved;
  }

  lemma ActivatedAsLast(flow: Flow, start: Run, moves: seq<Move>, id: StepId)
    requires moves != []
    requires var n := |moves| - 1; var r, after := Play(flow, start, moves[..n]), Play(flow, start, moves);
             && Opening(r, after, id) && Activated(r.trail, id) == 0 && moves[n].Did?
             && id in TargetsOf(flow, r.state, moves[n].event)
             && Activated(after.trail, id) == Activated(r.trail, id)
                 + Times(TargetsOf(flow, r.state, moves[n].event), id)
    ensures ActivatedAs(flow, start, moves, |moves| - 1, id)
  {
    hide Play, Activated, TargetsOf, Opening;
    assert moves[..|moves|] == moves;
  }

  lemma RowsStay(r: Run, after: Run, id: StepId)
    ensures Opening(r, after, id) <==> id !in r.state.steps && id in after.state.steps
  {
  }

  /** No success route lists a target twice. */
  ghost predicate ListsOnce(flow: Flow) {
    forall s, t :: Feeds(flow, s, t) ==> Times(SuccessRoute(flow.StepOf(s).value), t) == 1
  }

  lemma {:induction false} EntriesOnce(list: seq<Step>, drop: set<StepId>, id: StepId)
    requires DistinctIds(list)
    ensures Times(Dag.FilterIds(list, drop), id) <= 1
  {
    if list != [] {
      var n := |list| - 1;
      var before := Dag.FilterIds(list[..n], drop);
      EntriesOnce(list[..n], drop, id);
      LastIsNew(list, drop);
      hide Dag.FilterIds;
      FilterSnoc(list, drop);
      TimesSnoc(before, list[n].id, id);
      assert before + [] == before;
    }
  }

  lemma FilterSnoc(list: seq<Step>, drop: set<StepId>)
    requires list != []
    ensures var n := |list| - 1;
            Dag.FilterIds(list, drop) == Dag.FilterIds(list[..n], drop)
                + (if list[n].id in drop then [] else [list[n].id])
  {
  }

  lemma TimesSnoc(ids: seq<StepId>, last: StepId, id: StepId)
    ensures Times(ids + [last], id) == Times(ids, id) + (if last == id then 1 else 0)
  {
    assert (ids + [last])[..|ids|] == ids;
  }

  lemma LastIsNew(list: seq<Step>, drop: set<StepId>)
    requires list != [] && DistinctIds(list)
    ensures list[|list| - 1].id !in Dag.FilterIds(list[..|list| - 1], drop)
  {
    var n := |list| - 1;
    Dag.FilterIdsMembers(list[..n], drop);
    hide Dag.FilterIds;
  }

  lemma EntryOnce(flow: Flow, id: StepId)
    requires UniqueIds(flow) && id in Dag.EntrySteps(flow)
    ensures Times(Dag.EntrySteps(flow), id) == 1
  {
    var strict := Dag.FilterIds(flow.steps, Dag.Targeted(flow));
    hide Dag.FilterIds, Dag.Targeted, Dag.ForwardTargeted, Times;
    EntriesOnce(flow.steps, Dag.Targeted(flow), id);
    EntriesOnce(flow.steps, Dag.ForwardTargeted(flow), id);
  }

  lemma {:induction false} HappyAt(flow: Flow, start: Run, moves: seq<Move>, k: nat)
    requires HappyPlay(flow, start, moves) && k < |moves|
    ensures HappyPlay(flow, start, moves[..k])
    ensures CanMove(flow, Play(flow, start, moves[..k]), moves[k])
    ensures HappyMove(flow, Play(flow, start, moves[..k]), moves[k])
    decreases |moves|
  {
    hide CanMove, HappyMove, Play;
    var n := |moves| - 1;
    if k < n {
      HappyAt(flow, start, moves[..n], k);
      assert moves[..n][..k] == moves[..k];
    }
  }

  /** Where a happy move routes to: the entries, or the success route of its step. */
  lemma HappyRoute(flow: Flow, state: RunState, event: Event, id: StepId)
    requires FirstAttempts(flow, state.steps) && Happy(event) && Enabled(state, event)
    requires id in TargetsOf(flow, state, event)
    ensures event.RunStarted? ==> TargetsOf(flow, state, event) == Dag.EntrySteps(flow)
    ensures !event.RunStarted? ==>
              flow.Defined(event.stepId)
              && TargetsOf(flow, state, event) == SuccessRoute(flow.StepOf(event.stepId).value)
  {
  }

  /** The step that opened another at the `k`-th move, if it was not an entry. */
  predicate OpenedBy(moves: seq<Move>, k: nat, opener: StepId) {
    k < |moves| && moves[k].Did? && (moves[k].event.StepCompleted? || moves[k].event.StepApproved?)
    && moves[k].event.stepId == opener
  }

  /** Exactly once: in a run without failures the trail holds one activation of each step that
      has a row exactly when that step is an entry or the route that opened it lists it once. */
  lemma ActivatedOnceExactly(new_: NewRun, moves: seq<Move>, id: StepId) returns (k: nat, opener: Option<StepId>)
    requires FanIn(new_.definition) && UniqueIds(new_.definition) && HappyPlay(new_.definition, NewPlay(new_), moves)
    requires id in Play(new_.definition, NewPlay(new_), moves).state.steps
    ensures k < |moves| && OpenedAt(new_.definition, NewPlay(new_), moves, k, id)
    ensures if opener.None? then IsEntry(new_.definition, id)
            else OpenedBy(moves, k, opener.value) && Feeds(new_.definition, opener.value, id)
    ensures Activated(Play(new_.definition, NewPlay(new_), moves).trail, id) == 1 <==>
              opener.None? || Times(SuccessRoute(new_.definition.StepOf(opener.value).value), id) == 1
  {
    var flow, start := new_.definition, NewPlay(new_);
    hide *;
    k := ActivatedAsListed(new_, moves, id);
    opener := OpenerOf(new_, moves, k, id);
  }

  lemma OpenerOf(new_: NewRun, moves: seq<Move>, k: nat, id: StepId) returns (opener: Option<StepId>)
    requires FanIn(new_.definition) && UniqueIds(new_.definition) && HappyPlay(new_.definition, NewPlay(new_), moves)
    requires id in Play(new_.definition, NewPlay(new_), moves).state.steps
    requires ActivatedAs(new_.definition, NewPlay(new_), moves, k, id)
    ensures k < |moves| && OpenedAt(new_.definition, NewPlay(new_), moves, k, id)
    ensures if opener.None? then IsEntry(new_.definition, id)
            else OpenedBy(moves, k, opener.value) && Feeds(new_.definition, opener.value, id)
    ensures Activated(Play(new_.definition, NewPlay(new_), moves).trail, id) == 1 <==>
              opener.None? || Times(SuccessRoute(new_.definition.StepOf(opener.value).value), id) == 1
  {
    var flow, start := new_.definition, NewPlay(new_);
    hide FanIn, HappyPlay, Play, Activated, TargetsOf, Times, Steady, Transition, Enabled, Opening, SuccessRoute;
    HappyAt(flow, start, moves, k);
    var r, event := Play(flow, start, moves[..k]), moves[k].event;
    HappyPlaySteady(new_, moves[..k]);
    SteadyParts(flow, r.state.steps);
    HappyRoute(flow, r.state, event, id);
    opener := if event.RunStarted? then None else Some(event.stepId);
    if event.RunStarted? { EntryOnce(flow, id); }
    NeverDone(new_, moves, id);
  }

  lemma NeverDone(new_: NewRun, moves: seq<Move>, id: StepId)
    requires FanIn(new_.definition) && HappyPlay(new_.definition, NewPlay(new_), moves)
    requires id in Play(new_.definition, NewPlay(new_), moves).state.steps
    ensures id != DONE
  {
    hide FanIn, HappyPlay, Play, FirstAttempts, NothingMissed;
    HappyPlaySteady(new_, moves);
    var steps := Play(new_.definition, NewPlay(new_), moves).state.steps;
    assert IsEntry(new_.definition, id) || HasFeeder(new_.definition, id);
  }

  /** With no target listed twice, every step of every run without failures is activated once. */
  lemma ActivatedOnce(new_: NewRun, moves: seq<Move>, id: StepId)
    requires FanIn(new_.definition) && UniqueIds(new_.definition) && ListsOnce(new_.definition)
    requires HappyPlay(new_.definition, NewPlay(new_), moves)
    ensures Activated(Play(new_.definition, NewPlay(new_), moves).trail, id) ==
            if id in Play(new_.definition, NewPlay(new_), moves).state.steps then 1 else 0
  {
    hide FanIn, UniqueIds, HappyPlay, Play, Activated, Times, Feeds, SuccessRoute, OpenedAt, ActivatedAs;
    if id in Play(new_.definition, NewPlay(new_), moves).state.steps {
      var k, opener := ActivatedOnceExactly(new_, moves, id);
    } else {
      var k := ActivatedAsListed(new_, moves, id);
    }
  }
}
