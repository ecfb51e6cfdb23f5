/** Fan-out and fan-in: in a flow whose needs name exactly the steps that feed a gate on
    success, every interleaving of completions and approvals activates each step at most
    once and completes the same steps: the least set the entry leads to. */
module Confluence {
  import opened Wrappers
  import opened FlowTypes
  import opened Template
  import opened RunTypes
  import opened Engine
  import opened Core
  import opened Machine
  import opened Invariants
  import Dag

  // ----- the flow -----------------------------------------------------------------------

  /** The route a step takes when it succeeds. */
  function SuccessRoute(step: Step): seq<StepId> {
    RouteTargets(if step.humanLoop then step.onApprove else step.onSuccess)
  }

  predicate Feeds(flow: Flow, source: StepId, target: StepId) {
    flow.Defined(source) && target != DONE && target in SuccessRoute(flow.StepOf(source).value)
  }

  ghost predicate HasFeeder(flow: Flow, id: StepId) {
    exists s :: Feeds(flow, s, id)
  }

  predicate IsEntry(flow: Flow, id: StepId) {
    id in Dag.EntrySteps(flow) && id != DONE
  }

  /** The needs of a step are its feeders; with no needs it has at most one. */
  ghost predicate NeedsAreFeeders(flow: Flow, id: StepId)
    requires flow.Defined(id)
  {
    var needs := flow.StepOf(id).value.needs;
    if needs != [] then forall s :: s in needs <==> Feeds(flow, s, id)
    else forall s, t :: Feeds(flow, s, id) && Feeds(flow, t, id) ==> s == t
  }

  /** Success routes lead to defined steps; a step they lead to needs exactly its feeders; an
      entry has no feeder and needs nothing. Steps that only failures lead to are free. */
  ghost predicate FanIn(flow: Flow) {
    && (forall s, t :: Feeds(flow, s, t) ==> flow.Defined(t))
    && (forall id :: flow.Defined(id) && HasFeeder(flow, id) ==> NeedsAreFeeders(flow, id))
    && (forall id :: IsEntry(flow, id) && flow.Defined(id) ==> flow.StepOf(id).value.needs == [])
    && (forall s, id :: IsEntry(flow, id) ==> !Feeds(flow, s, id))
  }

  // ----- the run ------------------------------------------------------------------------

  predicate Done(steps: Steps, id: StepId) {
    id in steps && steps[id].status.Completed?
  }

  predicate Happy(event: Event) {
    event.RunStarted? || event.StepCompleted? || event.StepApproved?
  }

  /** A move of a run without failures or crashes: every activation of the event persists. */
  predicate HappyMove(flow: Flow, r: Run, m: Move) {
    m.Did? ==> Happy(m.event) && Transition(flow, r.state, m.event).Ok?
               && m.j == |Transition(flow, r.state, m.event).value.activations|
  }

  predicate HappyPlay(flow: Flow, start: Run, moves: seq<Move>) {
    moves == [] ||
    (HappyPlay(flow, start, moves[..|moves| - 1])
     && CanMove(flow, Play(flow, start, moves[..|moves| - 1]), moves[|moves| - 1])
     && HappyMove(flow, Play(flow, start, moves[..|moves| - 1]), moves[|moves| - 1]))
  }

  lemma {:induction false} HappyIsPlayable(flow: Flow, start: Run, moves: seq<Move>)
    requires HappyPlay(flow, start, moves)
    ensures Playable(flow, start, moves)
    ensures forall m :: m in moves ==> !HitsDeadline(m)
  {
    hide CanMove, Moved, Transition;
    if moves != [] {
      var n := |moves| - 1;
      HappyIsPlayable(flow, start, moves[..n]);
      assert moves == moves[..n] + [moves[n]];
    }
  }

  // ----- the least set ------------------------------------------------------------------

  ghost predicate FeedersIn(flow: Flow, done: set<StepId>, id: StepId) {
    forall s :: Feeds(flow, s, id) ==> s in done
  }

  /** A step fires when it is an entry, or when it has feeders and all of them are done. */
  ghost predicate Fires(flow: Flow, done: set<StepId>, id: StepId) {
    flow.Defined(id) && (IsEntry(flow, id) || (HasFeeder(flow, id) && FeedersIn(flow, done, id)))
  }

  ghost predicate FiresClosed(flow: Flow, done: set<StepId>) {
    forall id :: Fires(flow, done, id) ==> id in done
  }

  ghost predicate LeastFires(flow: Flow, done: set<StepId>) {
    FiresClosed(flow, done) && forall other :: FiresClosed(flow, other) ==> done <= other
  }

  // ----- the invariant ------------------------------------------------------------------

  /** Each row is the first attempt, running, waiting for approval or completed. */
  ghost predicate FirstAttempts(flow: Flow, steps: Steps) {
    forall id :: id in steps ==>
      && flow.Defined(id) && steps[id].attempt == 1
      && (steps[id].status.Running? || steps[id].status.WaitingApproval? || steps[id].status.Completed?)
      && (steps[id].status.WaitingApproval? ==> flow.StepOf(id).value.humanLoop)
  }

  ghost predicate FeedersDone(flow: Flow, steps: Steps, id: StepId) {
    forall s :: Feeds(flow, s, id) ==> Done(steps, s)
  }

  /** Only steps that fire have rows, and they have no unfinished feeder. */
  ghost predicate NothingEarly(flow: Flow, steps: Steps) {
    && (forall id :: id in steps ==> IsEntry(flow, id) || (HasFeeder(flow, id) && FeedersDone(flow, steps, id)))
    && (forall other :: FiresClosed(flow, other) ==> steps.Keys <= other)
  }

  /** Every step whose feeders are all done has a row. */
  ghost predicate NothingMissed(flow: Flow, steps: Steps) {
    && (forall id :: HasFeeder(flow, id) && FeedersDone(flow, steps, id) ==> id in steps)
    && (steps != map[] ==> forall id :: IsEntry(flow, id) ==> id in steps)
  }

  ghost predicate Steady(flow: Flow, steps: Steps) {
    FirstAttempts(flow, steps) && NothingEarly(flow, steps) && NothingMissed(flow, steps)
  }

  // ----- which targets activate ---------------------------------------------------------

  /** With completed steps as given, the gate of a fed step is open exactly when all its
      feeders are completed. */
  lemma GateIsFeeders(flow: Flow, state: RunState, source: StepId, id: StepId)
    requires FanIn(flow) && Feeds(flow, source, id) && Done(state.steps, source)
    ensures flow.Defined(id)
    ensures NeedsSatisfied(flow, state, flow.StepOf(id).value) <==> FeedersDone(flow, state.steps, id)
  {
    assert NeedsAreFeeders(flow, id);
    hide FanIn;
  }

  /** The activations of a list of targets are its open ones. */
  lemma {:induction false} ActivatedTargets(flow: Flow, state: RunState, ctx: TemplateContext, targets: seq<StepId>)
    requires ActivateTargets(flow, state, ctx, targets).Ok?
    ensures forall id :: id in ActIds(ActivateTargets(flow, state, ctx, targets).value) <==>
              id in targets && id != DONE && flow.Defined(id) && NeedsSatisfied(flow, state, flow.StepOf(id).value)
  {
    hide NeedsSatisfied;
    if targets != [] {
      var rest := targets[1..];
      ActivatedTargets(flow, state, ctx, rest);
      assert targets == [targets[0]] + rest;
      var one, more := ActivateOne(flow, state, ctx, targets[0]).value, ActivateTargets(flow, state, ctx, rest).value;
      forall id ensures id in ActIds(one + more) <==> id in ActIds(one) || id in ActIds(more) {
        if id in ActIds(one) { var a :| a in one && a.stepId == id; assert a in one + more; }
        if id in ActIds(more) { var a :| a in more && a.stepId == id; assert a in one + more; }
      }
      if one != [] { assert one[0] in one && one == [one[0]]; }
    }
  }

  /** A target the engine refuses to follow: not a step, or one whose gate is open and whose
      input does not resolve. */
  predicate Refuses(flow: Flow, state: RunState, ctx: TemplateContext, target: StepId) {
    target != DONE &&
    (!flow.Defined(target)
     || (NeedsSatisfied(flow, state, flow.StepOf(target).value) && ResolveInput(flow.StepOf(target).value, ctx).Err?))
  }

  /** A list of targets is refused exactly when one of them is. */
  lemma {:induction false} RefusedTargets(flow: Flow, state: RunState, ctx: TemplateContext, targets: seq<StepId>)
    ensures ActivateTargets(flow, state, ctx, targets).Err? <==>
              exists t :: t in targets && Refuses(flow, state, ctx, t)
  {
    hide NeedsSatisfied, ResolveInput;
    if targets != [] {
      var rest := targets[1..];
      RefusedTargets(flow, state, ctx, rest);
      assert targets == [targets[0]] + rest;
      assert ActivateOne(flow, state, ctx, targets[0]).Err? <==> Refuses(flow, state, ctx, targets[0]);
    }
  }

  // ----- one move -----------------------------------------------------------------------

  /** The state after a happy step event, row by row: the event's step is settled, the steps
      it opens are new, and all else is as it was. */
  ghost predicate Advanced(before: Steps, id: StepId, fired: set<StepId>, after: Steps) {
    && id in before && id in after
    && after.Keys == before.Keys + fired
    && (forall x :: x in before && x != id && x !in fired ==> after[x] == before[x])
    && (forall x :: x in fired ==>
        after[x].status.Running? && after[x].attempt == (if x in before then before[x].attempt + 1 else 1))
    && (id !in fired ==> after[id].attempt == before[id].attempt)
  }

  /** The steps an event on `id` opens once `id` is done. */
  ghost predicate Opens(flow: Flow, done: Steps, id: StepId, fired: set<StepId>) {
    forall x :: x in fired <==> Feeds(flow, id, x) && FeedersDone(flow, done, x)
  }

  /** Nothing that opens had a row before. */
  lemma OpenedAreNew(flow: Flow, before: Steps, next: Steps, id: StepId, fired: set<StepId>)
    requires NothingEarly(flow, before) && FanIn(flow) && !Done(before, id)
    requires Opens(flow, next, id, fired)
    ensures forall x :: x in fired ==> x !in before
  {
    assert forall x :: x in fired ==> Feeds(flow, id, x);
  }

  lemma AdvancedDone(flow: Flow, before: Steps, next: Steps, id: StepId, fired: set<StepId>, after: Steps)
    requires Advanced(before, id, fired, after) && Opens(flow, next, id, fired)
    requires FanIn(flow) && NothingEarly(flow, before) && !Done(before, id)
    requires next.Keys == before.Keys && Done(next, id) && (forall x :: x in before && x != id ==> next[x] == before[x])
    requires id !in fired ==> after[id].status == next[id].status
    ensures id !in fired && (forall x :: Done(after, x) <==> Done(next, x))
    ensures forall x :: Done(next, x) <==> x == id || Done(before, x)
  {
    OpenedAreNew(flow, before, next, id, fired);
  }

  lemma AdvanceKeepsEarly(flow: Flow, before: Steps, next: Steps, id: StepId, fired: set<StepId>, after: Steps)
    requires Advanced(before, id, fired, after) && Opens(flow, next, id, fired)
    requires NothingEarly(flow, before) && FanIn(flow)
    requires forall x :: Done(before, x) ==> Done(after, x)
    requires forall x :: Done(after, x) <==> Done(next, x)
    requires next.Keys == before.Keys
    ensures NothingEarly(flow, after)
  {
    forall x | x in after ensures IsEntry(flow, x) || (HasFeeder(flow, x) && FeedersDone(flow, after, x)) {
      if x in fired {
        assert Feeds(flow, id, x) && FeedersDone(flow, next, x);
      }
    }
    forall other | FiresClosed(flow, other) ensures after.Keys <= other {
      assert before.Keys <= other;
      forall x | x in fired ensures x in other {
        assert Feeds(flow, id, x) && FeedersDone(flow, next, x);
        assert Fires(flow, other, x);
      }
    }
  }

  lemma AdvanceKeepsMissed(flow: Flow, before: Steps, next: Steps, id: StepId, fired: set<StepId>, after: Steps)
    requires Advanced(before, id, fired, after) && Opens(flow, next, id, fired)
    requires NothingMissed(flow, before)
    requires forall x :: Done(after, x) <==> Done(next, x)
    requires forall x :: Done(next, x) <==> x == id || Done(before, x)
    ensures NothingMissed(flow, after)
  {
    forall x | HasFeeder(flow, x) && FeedersDone(flow, after, x) ensures x in after {
      if Feeds(flow, id, x) {
        assert FeedersDone(flow, next, x);
      } else {
        assert FeedersDone(flow, before, x);
      }
    }
  }

  /** What a settling event does: its step is completed and the fed steps whose feeders are
      now all completed activate. */
  lemma SettlingShape(flow: Flow, state: RunState, event: Event, e: Effect)
    requires FanIn(flow) && FirstAttempts(flow, state.steps) && NoVerdictYet(state.steps)
    requires Enabled(state, event) && Transition(flow, state, event) == Ok(e)
    requires event.StepApproved?
             || (event.StepCompleted? && flow.Defined(event.stepId) && !flow.StepOf(event.stepId).value.humanLoop)
    ensures e.mark == Some(Mark(event.stepId, StepStatus.Completed)) && e.cancels == []
    ensures e.next.steps.Keys == state.steps.Keys && Done(e.next.steps, event.stepId)
    ensures forall x :: x in state.steps && x != event.stepId ==> e.next.steps[x] == state.steps[x]
    ensures Opens(flow, e.next.steps, event.stepId, ActIds(e.activations))
  {
    hide *;
    var id, next := event.stepId, e.next;
    SettlingRoute(flow, state, event);
    var targets, ctx := SuccessRoute(flow.StepOf(id).value), BuildContext(flow, next);
    EffectShape(flow, state, event, e);
    SettlingMark(flow, state, event, e);
    SettledNext(state, event, e);
    FollowsRoute(flow, state, event, e);
    ActivatedTargets(flow, next, ctx, targets);
    forall x ensures x in ActIds(e.activations) <==> Feeds(flow, id, x) && FeedersDone(flow, next.steps, x) {
      FeedsBy(flow, id, x);
      if Feeds(flow, id, x) { GateIsFeeders(flow, next, id, x); }
    }
    OpensThese(flow, next.steps, id, ActIds(e.activations));
  }

  lemma FeedsBy(flow: Flow, source: StepId, target: StepId)
    requires flow.Defined(source)
    ensures flow.StepOf(source).Some?
    ensures Feeds(flow, source, target) <==> target != DONE && target in SuccessRoute(flow.StepOf(source).value)
  {
    hide SuccessRoute;
  }

  lemma OpensThese(flow: Flow, done: Steps, id: StepId, fired: set<StepId>)
    requires forall x :: x in fired <==> Feeds(flow, id, x) && FeedersDone(flow, done, x)
    ensures Opens(flow, done, id, fired)
  {
    hide Feeds, FeedersDone;
  }

  lemma FollowsRoute(flow: Flow, state: RunState, event: Event, e: Effect)
    requires Activates(flow, state, event, e) && !Reruns(flow, state, event)
    ensures ActivateTargets(flow, e.next, BuildContext(flow, e.next), TargetsOf(flow, state, event))
            == Ok(e.activations)
  {
    hide ActivateTargets, BuildContext, TargetsOf, Reruns;
  }

  /** The rows a settling event leaves before anything is activated. */
  lemma SettledNext(state: RunState, event: Event, e: Effect)
    requires event.StepApproved? || event.StepCompleted?
    requires NextIsMarked(state, event, e) && e.mark == Some(Mark(event.stepId, StepStatus.Completed))
    requires e.cancels == []
    ensures e.next.steps.Keys == state.steps.Keys && Done(e.next.steps, event.stepId)
    ensures forall x :: x in state.steps && x != event.stepId ==> e.next.steps[x] == state.steps[x]
  {
    hide CancelIds;
    CancelIdsAt(MarkedSteps(state.steps, event, e.mark), []);
  }

  lemma SettlingRoute(flow: Flow, state: RunState, event: Event)
    requires FirstAttempts(flow, state.steps) && Enabled(state, event)
    requires event.StepApproved?
             || (event.StepCompleted? && flow.Defined(event.stepId) && !flow.StepOf(event.stepId).value.humanLoop)
    ensures flow.StepOf(event.stepId).Some? && flow.Defined(event.stepId)
    ensures TargetsOf(flow, state, event) == SuccessRoute(flow.StepOf(event.stepId).value)
    ensures !Reruns(flow, state, event)
  {
  }

  lemma SettlingMark(flow: Flow, state: RunState, event: Event, e: Effect)
    requires Enabled(state, event) && Transition(flow, state, event) == Ok(e)
    requires event.StepApproved?
             || (event.StepCompleted? && flow.Defined(event.stepId) && !flow.StepOf(event.stepId).value.humanLoop)
    ensures e.mark == Some(Mark(event.stepId, StepStatus.Completed)) && e.cancels == []
  {
    hide ActivateTargets, BuildContext, AllTerminal, Phase, Unreached, Upsert, ApprovedState;
  }

  /** A completion or an approval keeps the run steady. */
  lemma SettlingKeepsSteady(flow: Flow, r: Run, event: Event, e: Effect)
    requires FanIn(flow) && Steady(flow, r.state.steps) && NoVerdictYet(r.state.steps)
    requires Enabled(r.state, event) && Transition(flow, r.state, event) == Ok(e)
    requires event.StepApproved?
             || (event.StepCompleted? && flow.Defined(event.stepId) && !flow.StepOf(event.stepId).value.humanLoop)
    ensures Steady(flow, After(r, e, |e.activations|).state.steps)
    ensures var id, before, after := event.stepId, r.state.steps, After(r, e, |e.activations|).state.steps;
            !Done(before, id) && (forall x :: Done(after, x) <==> x == id || Done(before, x))
            && (forall x :: HasWaiting(after, x) <==> HasWaiting(before, x) && x != id)
            && (forall x :: x in after <==> x in before || (Feeds(flow, id, x) && FeedersDone(flow, after, x)))
            && (forall x :: Feeds(flow, id, x) && FeedersDone(flow, after, x) ==> x !in before)
  {
    hide *;
    var id, n := event.stepId, |e.activations|;
    var before, after := r.state.steps, After(r, e, n).state.steps;
    var fired := ActIds(e.activations);
    SteadyParts(flow, before);
    NotDoneYet(r.state, event);
    SettlingShape(flow, r.state, event, e);
    AfterRows(flow, r, event, e, n);
    assert e.activations[..n] == e.activations;
    AdvancedRows(before, event, e, after);
    FiredDefined(flow, e.next.steps, id, fired);
    OpenedAreNew(flow, before, e.next.steps, id, fired);
    AdvancedSettled(e.next.steps, id, fired, after, before);
    AdvancedDone(flow, before, e.next.steps, id, fired, after);
    AdvanceKeepsEarly(flow, before, e.next.steps, id, fired, after);
    AdvanceKeepsMissed(flow, before, e.next.steps, id, fired, after);
    FirstAttemptsAdvance(flow, before, id, fired, after);
    PartsSteady(flow, after);
    NewRows(flow, before, e.next.steps, id, fired, after);
  }

  /** The rows that are new are those of the fed steps whose feeders are now all done. */
  lemma NewRows(flow: Flow, before: Steps, next: Steps, id: StepId, fired: set<StepId>, after: Steps)
    requires Advanced(before, id, fired, after) && Opens(flow, next, id, fired)
             && forall x :: x in fired ==> x !in before
    requires forall x :: Done(after, x) <==> Done(next, x)
    ensures forall x :: x in after <==> x in before || (Feeds(flow, id, x) && FeedersDone(flow, after, x))
    ensures forall x :: Feeds(flow, id, x) && FeedersDone(flow, after, x) ==> x !in before
  {
    hide Done, Feeds;
    assert forall x :: FeedersDone(flow, after, x) <==> FeedersDone(flow, next, x);
  }

  lemma SteadyParts(flow: Flow, steps: Steps)
    requires Steady(flow, steps)
    ensures FirstAttempts(flow, steps) && NothingEarly(flow, steps) && NothingMissed(flow, steps)
  {
  }

  lemma PartsSteady(flow: Flow, steps: Steps)
    requires FirstAttempts(flow, steps) && NothingEarly(flow, steps) && NothingMissed(flow, steps)
    ensures Steady(flow, steps)
  {
  }

  lemma AdvancedSettled(next: Steps, id: StepId, fired: set<StepId>, after: Steps, before: Steps)
    requires Done(next, id) && Advanced(before, id, fired, after)
    requires id !in fired ==> after[id].status.Completed?
    ensures id in next && (id !in fired ==> id in after && after[id].status == next[id].status)
  {
  }

  predicate HasWaiting(steps: Steps, id: StepId) {
    id in steps && steps[id].status.WaitingApproval?
  }

  lemma NotDoneYet(state: RunState, event: Event)
    requires (event.StepApproved? || event.StepCompleted?) && Enabled(state, event)
    ensures event.stepId in state.steps && !Done(state.steps, event.stepId)
  {
  }

  lemma AdvancedRows(before: Steps, event: Event, e: Effect, after: Steps)
    requires (event.StepApproved? || event.StepCompleted?) && event.stepId in before
    requires e.mark == Some(Mark(event.stepId, StepStatus.Completed)) && e.cancels == []
    requires e.activations[..|e.activations|] == e.activations
    requires forall id :: RowAfter(before, event, e, |e.activations|, after, id)
    ensures Advanced(before, event.stepId, ActIds(e.activations), after)
    ensures event.stepId !in ActIds(e.activations) ==> after[event.stepId].status.Completed?
  {
    var fired := ActIds(e.activations);
    hide ActIds;
    forall x ensures (x in after <==> x in before || x in fired)
                     && (x in before && x != event.stepId && x !in fired ==> after[x] == before[x])
    {
      assert RowAfter(before, event, e, |e.activations|, after, x);
    }
    assert RowAfter(before, event, e, |e.activations|, after, event.stepId);
    forall x | x in fired
      ensures after[x].status.Running? && after[x].attempt == (if x in before then before[x].attempt + 1 else 1) {
      assert RowAfter(before, event, e, |e.activations|, after, x);
    }
  }

  lemma FiredDefined(flow: Flow, next: Steps, id: StepId, fired: set<StepId>)
    requires FanIn(flow) && Opens(flow, next, id, fired)
    ensures forall x :: x in fired ==> flow.Defined(x)
  {
    assert forall x :: x in fired ==> Feeds(flow, id, x);
  }

  lemma FirstAttemptsAdvance(flow: Flow, before: Steps, id: StepId, fired: set<StepId>, after: Steps)
    requires FirstAttempts(flow, before) && Advanced(before, id, fired, after)
    requires forall x :: x in fired ==> x !in before && flow.Defined(x)
    requires id !in fired && after[id].status.Completed?
    ensures FirstAttempts(flow, after)
    ensures forall x :: HasWaiting(after, x) <==> HasWaiting(before, x) && x != id
  {
  }

  /** A completed job that awaits approval changes nothing but its own status. */
  lemma WaitingKeepsSteady(flow: Flow, r: Run, event: Event, e: Effect)
    requires FanIn(flow) && Steady(flow, r.state.steps) && NoVerdictYet(r.state.steps)
    requires Enabled(r.state, event) && Transition(flow, r.state, event) == Ok(e)
    requires event.StepCompleted? && flow.Defined(event.stepId) && flow.StepOf(event.stepId).value.humanLoop
    ensures e.activations == [] && Steady(flow, After(r, e, 0).state.steps)
    ensures var id, before, after := event.stepId, r.state.steps, After(r, e, 0).state.steps;
            && !HasWaiting(before, id)
            && (forall x :: Done(after, x) <==> Done(before, x))
            && (forall x :: HasWaiting(after, x) <==> HasWaiting(before, x) || x == id)
  {
    hide FanIn, NoVerdictYet, Transition, Enabled, FirstAttempts, NothingEarly, NothingMissed, Done, HasWaiting;
    var id, before := event.stepId, r.state.steps;
    WaitingShape(flow, r.state, event, e);
    assert After(r, e, 0).state.steps == e.next.steps;
    WaitingRows(flow, r.state, event, e.next.steps);
    SameDoneSteady(flow, before, e.next.steps);
  }

  lemma WaitingRows(flow: Flow, state: RunState, event: Event, after: Steps)
    requires event.StepCompleted? && Enabled(state, event) && FirstAttempts(flow, state.steps)
    requires flow.Defined(event.stepId) && flow.StepOf(event.stepId).value.humanLoop
    requires after == state.steps[event.stepId := WaitingRun(state.steps[event.stepId], event.output)]
    ensures FirstAttempts(flow, after) && after.Keys == state.steps.Keys && !HasWaiting(state.steps, event.stepId)
    ensures forall x :: Done(after, x) <==> Done(state.steps, x)
    ensures forall x :: HasWaiting(after, x) <==> HasWaiting(state.steps, x) || x == event.stepId
  {
    var row := WaitingRun(state.steps[event.stepId], event.output);
    assert row.attempt == 1 && row.status.WaitingApproval?;
    hide Enabled;
    WaitingRow(flow, state.steps, event.stepId, row);
  }

  lemma WaitingRow(flow: Flow, before: Steps, id: StepId, row: StepRun)
    requires FirstAttempts(flow, before) && flow.Defined(id) && flow.StepOf(id).value.humanLoop
    requires id in before && before[id].status.Running? && row.status.WaitingApproval? && row.attempt == 1
    ensures FirstAttempts(flow, before[id := row]) && before[id := row].Keys == before.Keys
    ensures forall x :: Done(before[id := row], x) <==> Done(before, x)
    ensures forall x :: HasWaiting(before[id := row], x) <==> HasWaiting(before, x) || x == id
  {
    var after := before[id := row];
    forall x ensures Done(after, x) <==> Done(before, x) {}
    forall x ensures HasWaiting(after, x) <==> HasWaiting(before, x) || x == id {}
  }

  lemma WaitingShape(flow: Flow, state: RunState, event: Event, e: Effect)
    requires Enabled(state, event) && Transition(flow, state, event) == Ok(e)
    requires event.StepCompleted? && flow.Defined(event.stepId) && flow.StepOf(event.stepId).value.humanLoop
    ensures e.activations == [] && e.finish.None?
    ensures event.stepId in state.steps
    ensures e.next.steps == state.steps[event.stepId := WaitingRun(state.steps[event.stepId], event.output)]
  {
  }

  lemma SameDoneSteady(flow: Flow, before: Steps, after: Steps)
    requires NothingEarly(flow, before) && NothingMissed(flow, before)
    requires after.Keys == before.Keys && forall x :: Done(after, x) <==> Done(before, x)
    ensures NothingEarly(flow, after) && NothingMissed(flow, after)
  {
    forall x ensures FeedersDone(flow, after, x) <==> FeedersDone(flow, before, x) {}
    assert before != map[] <==> after != map[] by {
      if before != map[] { var x :| x in before; assert x in after; }
      if after != map[] { var x :| x in after; assert x in before; }
    }
  }

  /** Starting a run gives exactly its entry steps a row. */
  lemma StartKeepsSteady(flow: Flow, r: Run, e: Effect)
    requires FanIn(flow) && NoVerdictYet(r.state.steps)
    requires Enabled(r.state, Event.RunStarted) && Transition(flow, r.state, Event.RunStarted) == Ok(e)
    ensures Steady(flow, After(r, e, |e.activations|).state.steps)
    ensures var after := After(r, e, |e.activations|).state.steps;
            forall x :: !Done(after, x) && !HasWaiting(after, x)
  {
    var n := |e.activations|;
    var after := After(r, e, n).state.steps;
    assert e.activations[..n] == e.activations;
    AfterRows(flow, r, Event.RunStarted, e, n);
    ActivatedTargets(flow, e.next, BuildContext(flow, e.next), Dag.EntrySteps(flow));
    hide Transition, BuildContext, ActivateTargets, After, Ends, ActIds, CancelIds, MarkedSteps;
    forall x ensures x in after ==> after[x].status.Running? && after[x].attempt == 1
             ensures x in after <==> IsEntry(flow, x)
    {
      assert RowAfter(r.state.steps, Event.RunStarted, e, n, after, x);
      if IsEntry(flow, x) { EntryOpen(flow, e.next, x); }
    }
    EntriesSteady(flow, after);
  }

  lemma EntryOpen(flow: Flow, state: RunState, id: StepId)
    requires FanIn(flow) && IsEntry(flow, id)
    ensures flow.Defined(id) && NeedsSatisfied(flow, state, flow.StepOf(id).value)
  {
    Dag.EntryHasNoForwardSource(flow, id);
    assert NeedsAreFeeders(flow, id);
    assert forall x :: !Feeds(flow, x, id);
    assert forall n :: n !in flow.StepOf(id).value.needs;
  }

  lemma EntriesSteady(flow: Flow, after: Steps)
    requires forall x :: x in after ==> after[x].status.Running? && after[x].attempt == 1
    requires forall x :: x in after <==> IsEntry(flow, x)
    ensures Steady(flow, after)
  {
    forall x | x in after ensures flow.Defined(x) { Dag.EntryHasNoForwardSource(flow, x); }
    forall other | FiresClosed(flow, other) ensures after.Keys <= other {
      forall x | x in after ensures x in other { assert Fires(flow, other, x); }
    }
    forall x | HasFeeder(flow, x) ensures !FeedersDone(flow, after, x) {
      var s :| Feeds(flow, s, x);
      assert !Done(after, s);
    }
  }
}
