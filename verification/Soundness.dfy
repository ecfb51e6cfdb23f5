/** What the validator accepts, against what a run can do: every step with a row has rows
    for all its guaranteed predecessors, so a step's input is resolved from rows that are
    there, and from no others. */
module Soundness {
  import opened Wrappers
  import opened FlowTypes
  import opened Template
  import opened TemplateProofs
  import opened Closure
  import opened Dag
  import opened Validate
  import opened RunTypes
  import opened Engine
  import opened Store
  import opened Scheduler
  import opened Core
  import opened Machine
  import opened Invariants

  // ----- where activations come from ----------------------------------------------------

  /** An activated target was routed to, is defined, and its needs were all completed. */
  ghost predicate Gated(flow: Flow, state: RunState, targets: seq<StepId>, acts: seq<StepActivation>) {
    forall a :: a in acts ==>
      a.stepId in targets && a.stepId != DONE && flow.Defined(a.stepId)
      && NeedsSatisfied(flow, state, flow.StepOf(a.stepId).value)
  }

  lemma {:induction false} TargetsGated(flow: Flow, state: RunState, ctx: TemplateContext, targets: seq<StepId>)
    requires ActivateTargets(flow, state, ctx, targets).Ok?
    ensures Gated(flow, state, targets, ActivateTargets(flow, state, ctx, targets).value)
  {
    if targets != [] {
      TargetsGated(flow, state, ctx, targets[1..]);
      assert targets == [targets[0]] + targets[1..];
    }
  }

  /** The routes out of a step that events follow lie among all its routes. */
  lemma FollowedRoutes(flow: Flow, state: RunState, event: Event, target: StepId)
    requires target in TargetsOf(flow, state, event) && !event.RunStarted?
    ensures exists source ::
              && ConcernsStep(event, source) && flow.Defined(source)
              && target in AllRoutes(flow.StepOf(source).value)
  {
    assert ConcernsStep(event, event.stepId);
  }

  /** No entry that a start activates has a direct predecessor other than itself. Entries no
      edge leads to are like that; an entry some `on_failure` leads to may not be. */
  predicate StartsClean(flow: Flow) {
    forall id | id in EntrySteps(flow) && Startable(flow, id) :: Direct(flow, id) <= {id}
  }

  predicate Startable(flow: Flow, id: StepId) {
    id != DONE && flow.Defined(id) && flow.StepOf(id).value.needs == []
  }

  ghost predicate WellJoined(flow: Flow) {
    forall s :: s in flow.steps ==> JoinDeclared(flow, s) && NeedsAreSources(flow, s)
  }

  /** Every step with a row has rows for its direct predecessors. */
  ghost predicate PredecessorsPresent(flow: Flow, steps: Steps) {
    forall id, p {:trigger id in steps, p in Direct(flow, id)} :: id in steps && p in Direct(flow, id) ==> p in steps
  }

  /** An open gate with a routing source that has a row: all direct predecessors have rows. */
  lemma DirectOfRouted(flow: Flow, next: RunState, source: StepId, target: StepId)
    requires WellJoined(flow) && flow.Defined(target) && source in Sources(flow, target) && source in next.steps
    requires NeedsSatisfied(flow, next, flow.StepOf(target).value)
    ensures Direct(flow, target) <= next.steps.Keys
  {
    hide Sources, NeedsAreSources;
    assert JoinDeclared(flow, flow.StepOf(target).value);
  }

  /** With no rows only a gate without needs is open. */
  lemma OpenAtStart(flow: Flow, next: RunState, id: StepId)
    requires next.steps == map[] && id != DONE && flow.Defined(id) && NeedsSatisfied(flow, next, flow.StepOf(id).value)
    ensures Startable(flow, id)
  {
    GateWithoutRows(flow, next, flow.StepOf(id).value);
  }

  /** When the gate of a routed target is open, its direct predecessors have rows. */
  lemma DirectPresent(flow: Flow, state: RunState, event: Event, next: RunState, target: StepId)
    requires WellJoined(flow) && StartsClean(flow) && PredecessorsPresent(flow, state.steps)
    requires Enabled(state, event) && next.steps.Keys == state.steps.Keys
    requires target in TargetsOf(flow, state, event) && target != DONE && flow.Defined(target)
    requires NeedsSatisfied(flow, next, flow.StepOf(target).value)
    ensures Direct(flow, target) <= state.steps.Keys + {target}
  {
    hide WellJoined, NeedsSatisfied, Direct, Sources, EntrySteps, AllRoutes, Startable;
    if event.RunStarted? {
      OpenAtStart(flow, next, target);
    } else {
      FollowedRoutes(flow, state, event, target);
      var source :| ConcernsStep(event, source) && flow.Defined(source)
          && target in AllRoutes(flow.StepOf(source).value);
      assert source in state.steps;
      if Counts(flow.StepOf(source).value, target) {
        SourcesAreEdges(flow, target);
        assert Edge(flow, source, target);
        DirectOfRouted(flow, next, source, target);
      } else {
        assert target in state.steps;
        forall p | p in Direct(flow, target) ensures p in state.steps {}
      }
    }
  }

  /** One move keeps direct predecessors present. */
  lemma MoveKeepsPredecessors(flow: Flow, r: Run, m: Move)
    requires WellJoined(flow) && StartsClean(flow)
    requires Invariant(flow, r) && PredecessorsPresent(flow, r.state.steps) && CanMove(flow, r, m)
    ensures PredecessorsPresent(flow, Moved(flow, r, m).state.steps)
  {
    if m.Did? {
      var e := Transition(flow, r.state, m.event).value;
      var after := After(r, e, m.j).state.steps;
      hide Transition, Enabled, NoVerdictYet, RowsSound, FailuresSpent, PhaseTracks, LogAgrees, EndsOnce, After,
           RowAfter, WellJoined, StartsClean, Direct, TargetsOf, CancelIds, MarkedSteps, BuildContext, ActivateTargets;
      AfterRows(flow, r, m.event, e, m.j);
      forall id, p | id in after && p in Direct(flow, id) ensures p in after {
        KeysAfter(r.state.steps, m.event, e, m.j, after, id);
        KeysAfter(r.state.steps, m.event, e, m.j, after, p);
        if id !in r.state.steps {
          NewActivation(flow, r.state, m.event, e, m.j, id);
          DirectPresent(flow, r.state, m.event, e.next, id);
          assert p in r.state.steps.Keys + {id};
        }
      }
    }
  }

  lemma KeysAfter(before: Steps, event: Event, e: Effect, j: nat, after: Steps, id: StepId)
    requires j <= |e.activations| && RowAfter(before, event, e, j, after, id)
    ensures id in after <==> id in before || id in ActIds(e.activations[..j])
  {
  }

  /** A step that gets its first row was routed to with its gate open. */
  lemma NewActivation(flow: Flow, state: RunState, event: Event, e: Effect, j: nat, id: StepId)
    requires Enabled(state, event) && NextIsMarked(state, event, e) && Activates(flow, state, event, e)
    requires j <= |e.activations| && id in ActIds(e.activations[..j]) && id !in state.steps
    ensures id in TargetsOf(flow, state, event) && id != DONE && flow.Defined(id)
    ensures NeedsSatisfied(flow, e.next, flow.StepOf(id).value)
  {
    hide TargetsOf, BuildContext, ActivateTargets, NextIsMarked, NeedsSatisfied;
    var a :| a in e.activations[..j] && a.stepId == id;
    assert a in e.activations;
    if !Reruns(flow, state, event) {
      TargetsGated(flow, e.next, BuildContext(flow, e.next), TargetsOf(flow, state, event));
    }
  }

  /** A rerun only starts its own step, which has a row. */
  lemma RerunHasRow(flow: Flow, state: RunState, event: Event, e: Effect, j: nat, t: StepId)
    requires Activates(flow, state, event, e) && Enabled(state, event) && j <= |e.activations|
    requires t in ActIds(e.activations[..j])
    requires Reruns(flow, state, event)
    ensures t in state.steps
  {
    hide ActivateTargets, BuildContext, TargetsOf;
    var a :| a in e.activations[..j] && a.stepId == t;
    assert a == e.activations[0];
  }

  lemma {:induction false} PlayPredecessors(new_: NewRun, moves: seq<Move>)
    requires WellJoined(new_.definition) && StartsClean(new_.definition)
    requires Playable(new_.definition, NewPlay(new_), moves)
    ensures PredecessorsPresent(new_.definition, Play(new_.definition, NewPlay(new_), moves).state.steps)
    decreases |moves|
  {
    if moves != [] {
      hide WellJoined, StartsClean, CanMove, Moved, Invariant, PredecessorsPresent;
      var n := |moves| - 1;
      PlayPredecessors(new_, moves[..n]);
      PlayInvariant(new_, moves[..n]);
      MoveKeepsPredecessors(new_.definition, Play(new_.definition, NewPlay(new_), moves[..n]), moves[n]);
    }
  }

  // ----- the validator's guarantee ------------------------------------------------------

  /** The guaranteed predecessors of a step: the set the validator's worklist computes. */
  ghost predicate Guaranteed(flow: Flow, id: StepId, before: set<StepId>) {
    LeastClosed(DirectGraph(flow), Direct(flow, id), before)
  }

  lemma NextInDirect(flow: Flow, a: StepId)
    ensures Next(DirectGraph(flow), a) <= Direct(flow, a)
  {
  }

  lemma ClosureInside(flow: Flow, steps: Steps, id: StepId, before: set<StepId>)
    requires PredecessorsPresent(flow, steps) && Direct(flow, id) <= steps.Keys + {id} && Guaranteed(flow, id, before)
    ensures before <= steps.Keys + {id}
  {
    hide Direct, DirectGraph, Next;
    var g, inside := DirectGraph(flow), steps.Keys + {id};
    forall a, b {:trigger b in Next(g, a)} | b in Next(g, a) && a in inside ensures b in inside {
      NextInDirect(flow, a);
      assert b in Direct(flow, a);
    }
    assert Closed(g, inside);
  }

  /** For an accepted flow that can start, every step with a row has rows for its direct
      predecessors in all reachable states exactly when the flow starts clean. The runs that
      break it are those of an entry that is the target of some other step's `on_failure`. */
  lemma SoundExactly(new_: NewRun)
    requires Accepted(new_.definition)
    requires Transition(new_.definition, NewPlay(new_).state, Event.RunStarted).Ok?
    ensures (forall moves :: Playable(new_.definition, NewPlay(new_), moves) ==>
               PredecessorsPresent(new_.definition, Play(new_.definition, NewPlay(new_), moves).state.steps))
            <==> StartsClean(new_.definition)
  {
    var flow := new_.definition;
    AcceptedJoins(flow);
    if StartsClean(flow) {
      hide *;
      forall moves | Playable(flow, NewPlay(new_), moves)
        ensures PredecessorsPresent(flow, Play(flow, NewPlay(new_), moves).state.steps) {
        PlayPredecessors(new_, moves);
      }
    } else {
      var id :| id in EntrySteps(flow) && Startable(flow, id) && !(Direct(flow, id) <= {id});
      var p :| p in Direct(flow, id) && p != id;
      OneEntry(flow, id);
      hide *;
      var moves := StartBreaks(new_, id, p);
    }
  }

  lemma OneEntry(flow: Flow, id: StepId)
    requires Accepted(flow) && id in EntrySteps(flow)
    ensures EntrySteps(flow) == [id]
  {
    hide EntrySteps, ForwardAcyclic, UniqueIds, StepRules, RefsGuaranteed;
  }

  /** Starting such an entry gives it a row while its predecessor has none. */
  lemma StartBreaks(new_: NewRun, id: StepId, p: StepId) returns (moves: seq<Move>)
    requires EntrySteps(new_.definition) == [id] && Startable(new_.definition, id) && p in Direct(new_.definition, id)
    requires p != id
    requires Transition(new_.definition, NewPlay(new_).state, Event.RunStarted).Ok?
    ensures Playable(new_.definition, NewPlay(new_), moves)
    ensures !PredecessorsPresent(new_.definition, Play(new_.definition, NewPlay(new_), moves).state.steps)
  {
    var flow, start := new_.definition, NewPlay(new_);
    var e := Transition(flow, start.state, Event.RunStarted).value;
    StartedEntry(flow, start.state, id);
    OneOverlaid(start.state.steps, e.activations);
    var m := Did(Event.RunStarted, 1);
    moves := [m];
    PlaySnoc(flow, start, [], m);
    assert [] + moves == moves;
    hide Transition, EntrySteps, Startable, Direct, Overlay;
    var after := Play(flow, start, moves).state.steps;
    assert id in after && p !in after;
  }

  /** What starting a run decides when there is one entry: nothing if it is called `done` or
      waits for needs, a refusal if its input does not resolve, and else its first attempt. */
  lemma StartedEntry(flow: Flow, state: RunState, id: StepId)
    requires EntrySteps(flow) == [id] && flow.Defined(id) && state.steps == map[]
    ensures var input := ResolveInput(flow.StepOf(id).value, BuildContext(flow, state));
            Transition(flow, state, Event.RunStarted) ==
            if !Startable(flow, id) then Ok(Effect(None, [], state, [], [], None))
            else match input
              case Err(e) => Err(e)
              case Ok(text) => Ok(Effect(None, [], state, [StepActivation(id, 1, text)], [], None))
  {
    hide EntrySteps, ResolveInput, BuildContext, NeedsSatisfied, ActivateTargets;
    var ctx := BuildContext(flow, state);
    GateWithoutRows(flow, state, flow.StepOf(id).value);
    OneTarget(flow, state, ctx, id);
  }

  lemma OneTarget(flow: Flow, state: RunState, ctx: TemplateContext, id: StepId)
    ensures ActivateTargets(flow, state, ctx, [id]) == ActivateOne(flow, state, ctx, id)
  {
    hide ActivateOne;
    assert [id][1..] == [] && ActivateTargets(flow, state, ctx, []) == Ok([]);
    match ActivateOne(flow, state, ctx, id) {
      case Ok(acts) => assert acts + [] == acts;
      case Err(_) =>
    }
  }

  lemma GateWithoutRows(flow: Flow, state: RunState, step: Step)
    requires state.steps == map[]
    ensures NeedsSatisfied(flow, state, step) <==> step.needs == []
  {
    if step.needs != [] { assert step.needs[0] in step.needs; }
  }

  lemma OneOverlaid(steps: Steps, acts: seq<StepActivation>)
    requires |acts| == 1
    ensures acts[..1] == acts && Overlay(steps, acts) == steps[acts[0].stepId := ActivatedRun(acts[0])]
  {
    assert acts[..0] == [];
  }

  /** Validator soundness over all runs, for stored rows: in every reachable state every step
      with a row has rows for all its guaranteed predecessors. */
  lemma GuaranteedHaveRows(new_: NewRun, moves: seq<Move>, id: StepId, before: set<StepId>)
    requires WellJoined(new_.definition) && StartsClean(new_.definition)
    requires Playable(new_.definition, NewPlay(new_), moves)
    requires Guaranteed(new_.definition, id, before)
    requires id in Play(new_.definition, NewPlay(new_), moves).state.steps
    ensures before <= Play(new_.definition, NewPlay(new_), moves).state.steps.Keys
  {
    PlayPredecessors(new_, moves);
    ClosureInside(new_.definition, Play(new_.definition, NewPlay(new_), moves).state.steps, id, before);
    assert Play(new_.definition, NewPlay(new_), moves).state.steps.Keys + {id}
        == Play(new_.definition, NewPlay(new_), moves).state.steps.Keys;
  }

  lemma AcceptedJoins(flow: Flow)
    requires Accepted(flow)
    ensures WellJoined(flow)
  {
    forall s | s in flow.steps ensures JoinDeclared(flow, s) && NeedsAreSources(flow, s) {
      assert StepRules(flow, s);
    }
  }

  lemma VisibleSteps(flow: Flow, state: RunState, id: StepId)
    requires flow.Defined(id)
    ensures id in BuildContext(flow, state).steps <==> id in state.steps
  {
    assert flow.StepOf(id).value in flow.steps;
  }

  /** For an accepted flow that starts clean: whenever an event routes to a step whose gate
      is open, every step its input mentions is visible to the template, except possibly the
      step itself; and all of them are visible exactly when it does not mention itself on its
      first activation. */
  lemma MentionedStepsVisible(new_: NewRun, moves: seq<Move>, event: Event, next: RunState, target: StepId)
    requires Accepted(new_.definition) && StartsClean(new_.definition)
    requires Playable(new_.definition, NewPlay(new_), moves)
    requires var state := Play(new_.definition, NewPlay(new_), moves).state;
             && Enabled(state, event) && next.steps.Keys == state.steps.Keys
             && target in TargetsOf(new_.definition, state, event)
    requires target != DONE && new_.definition.Defined(target)
    requires NeedsSatisfied(new_.definition, next, new_.definition.StepOf(target).value)
    ensures var refs := StepRefs(new_.definition.StepOf(target).value.with.input);
            var visible := BuildContext(new_.definition, next).steps;
            && (forall ref :: ref in refs && ref != target ==> ref in visible)
            && ((forall ref :: ref in refs ==> ref in visible) <==> (target in refs ==> target in next.steps))
  {
    var flow := new_.definition;
    var state := Play(flow, NewPlay(new_), moves).state;
    var step := flow.StepOf(target).value;
    hide *;
    AcceptedJoins(flow);
    PlayPredecessors(new_, moves);
    DirectPresent(flow, state, event, next, target);
    var before := SomeGuaranteed(flow, target);
    ClosureInside(flow, state.steps, target, before);
    InputRefsGuaranteed(flow, step, before);
    RefsVisible(flow, next, target, StepRefs(step.with.input), before);
  }

  lemma RefsVisible(flow: Flow, next: RunState, target: StepId, refs: seq<StepId>, before: set<StepId>)
    requires forall ref :: ref in refs ==> ref == target || ref in before
    requires before <= StepIds(flow) && before <= next.steps.Keys + {target} && flow.Defined(target)
    ensures var visible := BuildContext(flow, next).steps;
            && (forall ref :: ref in refs && ref != target ==> ref in visible)
            && ((forall ref :: ref in refs ==> ref in visible) <==> (target in refs ==> target in next.steps))
  {
    hide BuildContext;
    VisibleSteps(flow, next, target);
    forall ref | ref in refs && ref != target ensures ref in BuildContext(flow, next).steps {
      VisibleSteps(flow, next, ref);
    }
  }

  lemma InputRefsGuaranteed(flow: Flow, step: Step, before: set<StepId>)
    requires Accepted(flow) && step in flow.steps && Guaranteed(flow, step.id, before)
    ensures forall ref :: ref in StepRefs(step.with.input) ==> ref == step.id || ref in before
    ensures step.rejectInput.Some? ==>
              forall ref :: ref in StepRefs(step.rejectInput.value) ==> ref == step.id || ref in before
  {
    assert RefsGuaranteed(flow, step);
    assert forall ref :: ref in StepRefs(step.with.input) ==> ref in TemplateRefs(step);
    hide StepRefs;
    assert step.rejectInput.Some? ==>
        forall ref :: ref in StepRefs(step.rejectInput.value) ==> ref in TemplateRefs(step);
  }

  /** The least closed set exists: the steps in every closed set around the seed. */
  lemma SomeGuaranteed(flow: Flow, id: StepId) returns (before: set<StepId>)
    ensures Guaranteed(flow, id, before) && before <= StepIds(flow)
  {
    var g, seed, all := DirectGraph(flow), Direct(flow, id), StepIds(flow);
    DirectDefined(flow, id);
    before := set x | x in all && forall t: set<StepId> :: seed <= t && Closed(g, t) ==> x in t;
    forall a, b {:trigger b in Next(g, a)} | b in Next(g, a) && a in before ensures b in before {
      DirectDefined(flow, a);
      forall t: set<StepId> | seed <= t && Closed(g, t) ensures b in t {
        assert a in t;
      }
    }
    forall x | x in seed ensures x in before {}
    assert Closed(g, before);
    forall t: set<StepId> | seed <= t && Closed(g, t) ensures before <= t {
      forall x | x in before ensures x in t {}
    }
  }

  /** No race between siblings: for an accepted flow, what a step's input and its `reject_input`
      resolve to depends on no row other than those of its guaranteed predecessors and its own. */
  lemma NoSiblingRace(flow: Flow, step: Step, before: set<StepId>, ctx: TemplateContext)
    requires Accepted(flow) && step in flow.steps && Guaranteed(flow, step.id, before)
    ensures Resolve(step.with.input, Restrict(ctx, before + {step.id})) == Resolve(step.with.input, ctx)
    ensures step.rejectInput.Some? ==>
              Resolve(step.rejectInput.value, Restrict(ctx, before + {step.id}))
              == Resolve(step.rejectInput.value, ctx)
  {
    hide *;
    InputRefsGuaranteed(flow, step, before);
    ScannerSeesEveryRead(step.with.input, ctx, before + {step.id});
    if step.rejectInput.Some? { ScannerSeesEveryRead(step.rejectInput.value, ctx, before + {step.id}); }
  }

  /** A deadline or a cancel reaches every active step of an accepted flow: the id rule leaves
      no empty id. */
  lemma AcceptedCanStop(new_: NewRun, moves: seq<Move>, event: Event)
    requires Accepted(new_.definition) && Playable(new_.definition, NewPlay(new_), moves)
    requires event.RunDeadlineExceeded? || event.CancelRequested?
    ensures var flow, r := new_.definition, Play(new_.definition, NewPlay(new_), moves);
            && Enabled(r.state, event) && Transition(flow, r.state, event).Ok?
            && !SomeActive(After(r, Transition(flow, r.state, event).value, 0).state)
  {
    var flow, r := new_.definition, Play(new_.definition, NewPlay(new_), moves);
    PlayInvariant(new_, moves);
    assert !flow.Defined(NOTHING);
    StopReachesAll(flow, r, event, Transition(flow, r.state, event).value);
  }
}
