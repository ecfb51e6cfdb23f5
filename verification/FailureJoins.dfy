/** Joins on failure. A need is only met by a completed step, and the step whose failure or
    rejection routes to a join is not completed: it opens the gate exactly when the join does
    not need it and everything it does need is already completed. */
module FailureJoins {
  import opened Wrappers
  import opened FlowTypes
  import opened Dag
  import opened RunTypes
  import opened Engine
  import opened Store
  import opened Rows
  import opened Core
  import opened Machine
  import opened Invariants
  import opened Soundness
  import opened Confluence

  // ----- one event ----------------------------------------------------------------------

  predicate Unhappy(flow: Flow, state: RunState, event: Event) {
    (event.StepFailed? || event.StepRejected?) && !Reruns(flow, state, event)
  }

  /** The needs of a step that a failure or rejection of `source` leaves met. */
  predicate MetWithout(flow: Flow, state: RunState, source: StepId, t: StepId)
    requires flow.Defined(t)
  {
    forall n | n in flow.StepOf(t).value.needs :: n != source && flow.Defined(n) && Done(state.steps, n)
  }

  /** Whether a failure or rejection routes to a step and finds its gate open. */
  predicate Reaches(flow: Flow, state: RunState, event: Event, t: StepId) {
    Unhappy(flow, state, event) && t in TargetsOf(flow, state, event) && t != DONE && flow.Defined(t)
    && MetWithout(flow, state, event.stepId, t)
  }

  /** After a final failure or a rejection, the steps that are completed are those that were,
      other than the step of the event. */
  lemma StillDone(state: RunState, event: Event, e: Effect)
    requires Enabled(state, event) && (event.StepFailed? || event.StepRejected?)
    requires NextIsMarked(state, event, e) && e.mark.Some? && !e.mark.value.status.Completed?
    ensures forall n :: Done(e.next.steps, n) <==> n != event.stepId && Done(state.steps, n)
  {
    hide CancelIds;
    CancelIdsAt(MarkedSteps(state.steps, event, e.mark), e.cancels);
  }

  lemma UnhappyMark(flow: Flow, state: RunState, event: Event, e: Effect)
    requires Unhappy(flow, state, event) && Transition(flow, state, event) == Ok(e)
    ensures e.mark.Some? && (e.mark.value.status.Failed? || e.mark.value.status.FailedRejected?)
  {
    hide ActivateTargets, BuildContext, AllTerminal, Phase, Unreached, ActiveExcluding;
  }

  /** A final failure, or a rejection that does not loop back, activates a step exactly when it
      routes there, the step does not need the step that failed, and everything it needs is
      completed already. */
  lemma UnhappyActivates(flow: Flow, state: RunState, event: Event, e: Effect, t: StepId)
    requires Unhappy(flow, state, event) && Enabled(state, event) && NoVerdictYet(state.steps)
    requires Transition(flow, state, event) == Ok(e)
    ensures t in ActIds(e.activations) <==> Reaches(flow, state, event, t)
  {
    hide Transition, Enabled, NoVerdictYet, Ends, CancelIds, MarkedSteps, BuildContext, ActivateTargets, TargetsOf,
         ActIds, Reruns;
    EffectShape(flow, state, event, e);
    UnhappyMark(flow, state, event, e);
    StillDone(state, event, e);
    ActivatedTargets(flow, e.next, BuildContext(flow, e.next), TargetsOf(flow, state, event));
    if flow.Defined(t) { GateMet(flow, state, e.next, event.stepId, t); }
  }

  lemma GateMet(flow: Flow, state: RunState, next: RunState, source: StepId, t: StepId)
    requires flow.Defined(t) && forall n :: Done(next.steps, n) <==> n != source && Done(state.steps, n)
    ensures NeedsSatisfied(flow, next, flow.StepOf(t).value) <==> MetWithout(flow, state, source, t)
  {
    assert forall n :: n in next.steps && next.steps[n].status == StepStatus.Completed <==> Done(next.steps, n);
  }

  /** When such an event reaches nothing, a failure ends the run, for it cancels all else; a
      rejection ends it exactly when no other step is still going. */
  lemma ReachingNothingEnds(flow: Flow, state: RunState, event: Event, e: Effect)
    requires Unhappy(flow, state, event) && Enabled(state, event) && NoVerdictYet(state.steps)
    requires Transition(flow, state, event) == Ok(e) && e.activations == []
    ensures e.finish.Some? <==> AllTerminal(e.next)
    ensures event.StepFailed? && !state.cancelled
            && (forall id :: id in state.steps ==> Written(state.steps[id].status)) ==>
              e.finish == Some(RunPhase.Failed)
    ensures event.StepRejected? ==>
              (e.finish.Some? <==>
               forall id :: id in state.steps && id != event.stepId ==> state.steps[id].status.IsTerminal())
  {
    EffectShape(flow, state, event, e);
    UnhappyMark(flow, state, event, e);
    UnhappyCancels(flow, state, event, e);
    hide Transition, NoVerdictYet, CancelIds, MarkedSteps, BuildContext, ActivateTargets, TargetsOf, Reruns, Phase,
         Unreached;
    CancelIdsAt(MarkedSteps(state.steps, event, e.mark), e.cancels);
    EndedRows(state, event, e);
    if event.StepFailed? { FailedPhase(e.next, event.stepId); }
  }

  lemma UnhappyCancels(flow: Flow, state: RunState, event: Event, e: Effect)
    requires Unhappy(flow, state, event) && Transition(flow, state, event) == Ok(e)
    ensures event.StepFailed? ==>
              e.cancels == ActiveExcluding(state, event.stepId) && e.mark == Some(Mark(event.stepId, StepStatus.Failed))
    ensures event.StepRejected? ==> e.cancels == [] && e.mark == Some(Mark(event.stepId, FailedRejected))
  {
    hide ActivateTargets, BuildContext, AllTerminal, Phase, Unreached, ActiveExcluding;
  }

  /** The statuses such an event leaves behind. */
  lemma EndedRows(state: RunState, event: Event, e: Effect)
    requires Enabled(state, event) && (event.StepFailed? || event.StepRejected?) && NextIsMarked(state, event, e)
    requires event.StepFailed? ==>
               e.cancels == ActiveExcluding(state, event.stepId)
               && e.mark == Some(Mark(event.stepId, StepStatus.Failed))
    requires event.StepRejected? ==> e.cancels == [] && e.mark == Some(Mark(event.stepId, FailedRejected))
    ensures event.stepId in e.next.steps && (event.StepFailed? ==> e.next.steps[event.stepId].status.Failed?)
    ensures event.StepFailed? && (forall id :: id in state.steps ==> Written(state.steps[id].status)) ==>
              AllTerminal(e.next)
    ensures event.StepRejected? ==>
              (AllTerminal(e.next) <==>
               forall id :: id in state.steps && id != event.stepId ==> state.steps[id].status.IsTerminal())
  {
    hide CancelIds, ActiveExcluding;
    CancelIdsAt(MarkedSteps(state.steps, event, e.mark), e.cancels);
    ActiveExactly(state, event.stepId);
  }

  lemma FailedPhase(next: RunState, id: StepId)
    requires id in next.steps && next.steps[id].status.Failed?
    ensures AllTerminal(next) && !next.cancelled ==> Phase(next) == RunPhase.Failed
  {
  }

  // ----- whole runs ---------------------------------------------------------------------

  /** No success leads to the step, and a new run does not start with it. */
  ghost predicate OnlyUnhappily(flow: Flow, t: StepId) {
    && flow.Defined(t) && (t in EntrySteps(flow) ==> flow.StepOf(t).value.needs != [])
    && forall s :: flow.Defined(s) ==> t !in SuccessRoute(flow.StepOf(s).value)
  }

  /** The `k`-th move of a play gives the step its first row, by a failure or rejection that
      reaches it. */
  predicate ReachedAt(flow: Flow, start: Run, moves: seq<Move>, k: nat, t: StepId) {
    k < |moves| && moves[k].Did?
    && var r := Play(flow, start, moves[..k]); t !in r.state.steps && Reaches(flow, r.state, moves[k].event, t)
  }

  /** Every activation of every event was persisted. */
  ghost predicate Whole(flow: Flow, start: Run, moves: seq<Move>) {
    forall k :: 0 <= k < |moves| ==> WholeMove(flow, Play(flow, start, moves[..k]), moves[k])
  }

  predicate WholeMove(flow: Flow, r: Run, m: Move) {
    m.Did? ==> Transition(flow, r.state, m.event).Ok? && m.j == |Transition(flow, r.state, m.event).value.activations|
  }

  /** With no rows, or through a success, such a step is never started. */
  lemma OnlyThen(flow: Flow, r: Run, event: Event, e: Effect, j: nat, t: StepId)
    requires OnlyUnhappily(flow, t) && Invariant(flow, r) && t !in r.state.steps
    requires Enabled(r.state, event) && Transition(flow, r.state, event) == Ok(e) && j <= |e.activations|
    requires t in ActIds(e.activations[..j])
    ensures Reaches(flow, r.state, event, t)
  {
    hide Transition, RowsSound, FailuresSpent, PhaseTracks, LogAgrees, EndsOnce, NoVerdictYet, Ends, BuildContext,
         ActivateTargets, CancelIds, MarkedSteps, EntrySteps, SuccessRoute, NeedsSatisfied, TargetsOf, MetWithout,
         ActIds;
    EffectShape(flow, r.state, event, e);
    NewActivation(flow, r.state, event, e, j, t);
    if Reruns(flow, r.state, event) { RerunHasRow(flow, r.state, event, e, j, t); }
    if event.RunStarted? {
      StartTargets(flow, r.state);
      SomeNeed(flow, r.state, e.next, t);
    } else if event.StepCompleted? || event.StepApproved? {
      SuccessTargets(flow, r, event, t);
    } else {
      UnhappyOnly(flow, r.state, event, t);
      PrefixActs(e.activations, j, t);
      UnhappyActivates(flow, r.state, event, e, t);
    }
  }

  lemma PrefixActs(acts: seq<StepActivation>, j: nat, t: StepId)
    requires j <= |acts|
    ensures t in ActIds(acts[..j]) ==> t in ActIds(acts)
  {
    if t in ActIds(acts[..j]) {
      var a :| a in acts[..j] && a.stepId == t;
      assert a in acts;
    }
  }

  lemma StartTargets(flow: Flow, state: RunState)
    ensures TargetsOf(flow, state, Event.RunStarted) == EntrySteps(flow)
  {
  }

  lemma SomeNeed(flow: Flow, state: RunState, next: RunState, t: StepId)
    requires flow.Defined(t) && flow.StepOf(t).value.needs != [] && state.steps == map[]
    requires next.steps.Keys == state.steps.Keys
    ensures !NeedsSatisfied(flow, next, flow.StepOf(t).value)
  {
    assert flow.StepOf(t).value.needs[0] in flow.StepOf(t).value.needs;
  }

  lemma SuccessTargets(flow: Flow, r: Run, event: Event, t: StepId)
    requires Invariant(flow, r) && Enabled(r.state, event) && (event.StepCompleted? || event.StepApproved?)
    requires t in TargetsOf(flow, r.state, event)
    ensures flow.Defined(event.stepId) && t in SuccessRoute(flow.StepOf(event.stepId).value)
  {
    hide FailuresSpent, PhaseTracks, LogAgrees, EndsOnce, NoVerdictYet;
  }

  lemma UnhappyOnly(flow: Flow, state: RunState, event: Event, t: StepId)
    requires !event.RunStarted? && !event.StepCompleted? && !event.StepApproved? && t in TargetsOf(flow, state, event)
    requires !Reruns(flow, state, event)
    ensures Unhappy(flow, state, event)
  {
  }

  lemma PlayLast(flow: Flow, start: Run, moves: seq<Move>)
    requires Playable(flow, start, moves) && moves != []
    ensures var n := |moves| - 1; var r := Play(flow, start, moves[..n]);
            && Playable(flow, start, moves[..n]) && CanMove(flow, r, moves[n])
            && Play(flow, start, moves) == Moved(flow, r, moves[n])
  {
    hide CanMove, Moved;
  }

  /** One move: a step that is only reached unhappily gets its first row by an event that
      reaches it; and it does get it, if the move was not cut short. */
  lemma MoveReaches(flow: Flow, r: Run, m: Move, t: StepId)
    requires OnlyUnhappily(flow, t) && Invariant(flow, r) && CanMove(flow, r, m)
    ensures t in r.state.steps ==> t in Moved(flow, r, m).state.steps
    ensures t !in r.state.steps && t in Moved(flow, r, m).state.steps ==> m.Did? && Reaches(flow, r.state, m.event, t)
    ensures m.Did? && Reaches(flow, r.state, m.event, t) && WholeMove(flow, r, m) ==> t in Moved(flow, r, m).state.steps
  {
    if m.Did? {
      hide *;
      var event := m.event;
      CouldMove(flow, r, m);
      var e := MovedBy(flow, r, m);
      VerdictsOpen(flow, r);
      AfterRows(flow, r, event, e, m.j);
      KeysAfter(r.state.steps, event, e, m.j, After(r, e, m.j).state.steps, t);
      if t !in r.state.steps && t in ActIds(e.activations[..m.j]) { OnlyThen(flow, r, event, e, m.j, t); }
      if Reaches(flow, r.state, event, t) && WholeMove(flow, r, m) {
        ReachesUnhappily(flow, r.state, event, t);
        UnhappyActivates(flow, r.state, event, e, t);
        AllActs(flow, r, m, e);
      }
    } else {
      NothingMoved(flow, r, m);
    }
  }

  lemma MovedBy(flow: Flow, r: Run, m: Move) returns (e: Effect)
    requires CanMove(flow, r, m) && m.Did?
    ensures Transition(flow, r.state, m.event) == Ok(e) && m.j <= |e.activations|
    ensures Moved(flow, r, m) == After(r, e, m.j)
  {
    e := Transition(flow, r.state, m.event).value;
    hide Transition, Enabled, After;
  }

  lemma AllActs(flow: Flow, r: Run, m: Move, e: Effect)
    requires WholeMove(flow, r, m) && m.Did? && Transition(flow, r.state, m.event) == Ok(e)
    ensures m.j == |e.activations| && e.activations[..m.j] == e.activations
  {
    hide Transition;
  }

  lemma NothingMoved(flow: Flow, r: Run, m: Move)
    requires m.Logged?
    ensures Moved(flow, r, m).state == r.state
  {
  }

  lemma ReachesUnhappily(flow: Flow, state: RunState, event: Event, t: StepId)
    requires Reaches(flow, state, event, t)
    ensures Unhappy(flow, state, event)
  {
  }

  lemma ReachedLonger(flow: Flow, start: Run, moves: seq<Move>, t: StepId)
    requires moves != []
    ensures var n := |moves| - 1;
            forall k: nat :: ReachedAt(flow, start, moves, k, t) <==>
              if k == n then ReachedAt(flow, start, moves, n, t) else ReachedAt(flow, start, moves[..n], k, t)
    ensures forall k: nat :: ReachedAt(flow, start, moves[..|moves| - 1], k, t) ==> ReachedAt(flow, start, moves, k, t)
  {
    var n := |moves| - 1;
    hide Reaches, Play;
    forall k: nat | k < n ensures moves[..n][..k] == moves[..k] && moves[..n][k] == moves[k] {}
  }

  /** Over whole runs: a step that no success leads to has a row only if some failure or
      rejection reached it; and exactly then, if nothing was cut short. */
  lemma {:induction false} JoinRunsExactly(new_: NewRun, moves: seq<Move>, t: StepId)
    requires OnlyUnhappily(new_.definition, t) && Playable(new_.definition, NewPlay(new_), moves)
    ensures var flow, start := new_.definition, NewPlay(new_);
            var ran := t in Play(flow, start, moves).state.steps;
            && (ran ==> exists k: nat :: ReachedAt(flow, start, moves, k, t))
            && (Whole(flow, start, moves) ==> (ran <==> exists k: nat :: ReachedAt(flow, start, moves, k, t)))
    decreases |moves|
  {
    hide *;
    var flow, start := new_.definition, NewPlay(new_);
    if moves == [] {
      NothingReached(flow, new_, t);
    } else {
      var n := |moves| - 1;
      PlayLast(flow, start, moves);
      JoinRunsExactly(new_, moves[..n], t);
      PlayInvariant(new_, moves[..n]);
      MoveReaches(flow, Play(flow, start, moves[..n]), moves[n], t);
      ReachedLonger(flow, start, moves, t);
      ReachedLast(flow, start, moves, t);
      WholeLast(flow, start, moves);
      if t in Play(flow, start, moves[..n]).state.steps {
        var k: nat :| ReachedAt(flow, start, moves[..n], k, t);
        assert ReachedAt(flow, start, moves, k, t);
      }
    }
  }

  lemma NothingReached(flow: Flow, new_: NewRun, t: StepId)
    ensures t !in Play(flow, NewPlay(new_), []).state.steps
            && forall k: nat :: !ReachedAt(flow, NewPlay(new_), [], k, t)
  {
  }

  lemma ReachedLast(flow: Flow, start: Run, moves: seq<Move>, t: StepId)
    requires moves != []
    ensures var n := |moves| - 1; var r := Play(flow, start, moves[..n]);
            ReachedAt(flow, start, moves, n, t) <==>
                moves[n].Did? && t !in r.state.steps && Reaches(flow, r.state, moves[n].event, t)
  {
    hide Reaches, Play;
  }

  lemma WholeLast(flow: Flow, start: Run, moves: seq<Move>)
    requires moves != []
    ensures Whole(flow, start, moves) ==>
              Whole(flow, start, moves[..|moves| - 1])
              && WholeMove(flow, Play(flow, start, moves[..|moves| - 1]), moves[|moves| - 1])
  {
    var n := |moves| - 1;
    hide WholeMove, Play;
    forall k: nat | k < n ensures moves[..n][..k] == moves[..k] && moves[..n][k] == moves[k] {}
  }

  // ----- joins that need all their sources ----------------------------------------------

  /** `id` is only reached from steps that fail or are rejected, and needs all of them. */
  ghost predicate FailureJoin(flow: Flow, id: StepId) {
    && OnlyUnhappily(flow, id) && (forall s :: s in Sources(flow, id) ==> s in flow.StepOf(id).value.needs)
  }

  lemma ReachedEdge(flow: Flow, state: RunState, event: Event, id: StepId)
    requires Reaches(flow, state, event, id) && Enabled(state, event) && id !in state.steps
    ensures event.stepId in Sources(flow, id)
  {
    var s := event.stepId;
    hide Sources, EntrySteps, Reruns, MetWithout;
    FollowedRoutes(flow, state, event, id);
    SourcesAreEdges(flow, id);
    assert Counts(flow.StepOf(s).value, id);
    assert Edge(flow, s, id);
  }

  /** Nothing reaches such a join while it has no row. */
  lemma JoinUnreached(flow: Flow, state: RunState, event: Event, id: StepId)
    requires FailureJoin(flow, id) && Enabled(state, event) && id !in state.steps
    ensures !Reaches(flow, state, event, id)
  {
    if Reaches(flow, state, event, id) {
      ReachedEdge(flow, state, event, id);
      hide Sources, OnlyUnhappily;
    }
  }

  /** A failure join never runs: the format asks a step with several routing sources to list
      them all as needs, and a step that collects failures and does so has no row in any
      reachable state. */
  lemma FailureJoinNeverRuns(new_: NewRun, moves: seq<Move>, id: StepId)
    requires FailureJoin(new_.definition, id)
    requires Playable(new_.definition, NewPlay(new_), moves)
    ensures id !in Play(new_.definition, NewPlay(new_), moves).state.steps
  {
    hide *;
    var flow, start := new_.definition, NewPlay(new_);
    JoinIs(flow, id);
    JoinRunsExactly(new_, moves, id);
    forall k: nat ensures !ReachedAt(flow, start, moves, k, id) {
      if ReachedAt(flow, start, moves, k, id) {
        ReachedMeans(flow, start, moves, k, id);
        PlayAt(flow, start, moves, k);
        CouldMove(flow, Play(flow, start, moves[..k]), moves[k]);
        JoinUnreached(flow, Play(flow, start, moves[..k]).state, moves[k].event, id);
      }
    }
  }

  lemma JoinIs(flow: Flow, id: StepId)
    requires FailureJoin(flow, id)
    ensures OnlyUnhappily(flow, id)
  {
  }

  lemma ReachedMeans(flow: Flow, start: Run, moves: seq<Move>, k: nat, t: StepId)
    requires ReachedAt(flow, start, moves, k, t)
    ensures k < |moves| && moves[k].Did? && t !in Play(flow, start, moves[..k]).state.steps
    ensures Reaches(flow, Play(flow, start, moves[..k]).state, moves[k].event, t)
  {
  }

  lemma CouldMove(flow: Flow, r: Run, m: Move)
    requires CanMove(flow, r, m) && m.Did?
    ensures Enabled(r.state, m.event)
  {
  }

  lemma {:induction false} PlayAt(flow: Flow, start: Run, moves: seq<Move>, k: nat)
    requires Playable(flow, start, moves) && k < |moves|
    ensures Playable(flow, start, moves[..k]) && CanMove(flow, Play(flow, start, moves[..k]), moves[k])
    decreases |moves|
  {
    hide CanMove, Play;
    var n := |moves| - 1;
    if k < n {
      PlayAt(flow, start, moves[..n], k);
      assert moves[..n][..k] == moves[..k];
    }
  }
}
