/** A step whose approval leads back to itself. The cycle check does not see such a route when
    the step's rejection loops back too, and once the step waits nothing bounds the run. */
module SelfApproval {
  import opened Wrappers
  import opened FlowTypes
  import opened Template
  import opened RunTypes
  import opened Engine
  import opened Store
  import opened Core
  import opened Machine
  import opened Invariants
  import opened Confluence
  import FanInRuns

  // ----- what a round needs -------------------------------------------------------------

  function OnApprove(flow: Flow, id: StepId): seq<StepId>
    requires flow.Defined(id)
  {
    RouteTargets(flow.StepOf(id).value.onApprove)
  }

  /** The other steps the approval leads to. */
  predicate Beside(flow: Flow, id: StepId, x: StepId)
    requires flow.Defined(id)
  {
    x in OnApprove(flow, id) && x != id && x != DONE
  }

  /** Two states a template cannot tell apart but by the other targets of the approval. */
  ghost predicate SameBesides(flow: Flow, id: StepId, a: RunState, b: RunState)
    requires flow.Defined(id)
  {
    && a.inputs == b.inputs && a.trigger == b.trigger
    && forall x :: !Beside(flow, id, x) ==>
         (x in a.steps <==> x in b.steps) && (x in a.steps ==> ContextOf(a.steps[x]) == ContextOf(b.steps[x]))
  }

  /** The targets of the approval are steps or `done`, and their inputs resolve, whatever
      becomes of the other targets. */
  ghost predicate KeepsResolving(flow: Flow, id: StepId, base: RunState)
    requires flow.Defined(id)
  {
    && (forall t :: t in OnApprove(flow, id) ==> t == DONE || flow.Defined(t))
    && forall s: RunState, t :: SameBesides(flow, id, base, s) && t in OnApprove(flow, id) && t != DONE ==>
         flow.Defined(t) && ResolveInput(flow.StepOf(t).value, BuildContext(flow, s)).Ok?
  }

  /** The step names itself on approval, and needs none of the other targets. */
  predicate ApprovesItself(flow: Flow, id: StepId) {
    && flow.Defined(id) && id != DONE && flow.StepOf(id).value.humanLoop && id in OnApprove(flow, id)
    && forall n | n in flow.StepOf(id).value.needs :: !Beside(flow, id, n)
  }

  /** The step waits, its gate is open to itself, and the inputs resolve. */
  ghost predicate Loops(flow: Flow, id: StepId, comment: Option<string>, output: Value, base: RunState, r: Run) {
    && ApprovesItself(flow, id) && KeepsResolving(flow, id, base)
    && r.phase == RunPhase.Running && HasStatus(r.state, id, WaitingApproval)
    && r.state.steps[id].output == Some(output)
    && NoVerdictYet(r.state.steps)
    && NeedsSatisfied(flow, ApprovedState(r.state, id, comment), flow.StepOf(id).value)
    && SameBesides(flow, id, base, ApprovedState(r.state, id, comment))
  }

  // ----- one round ----------------------------------------------------------------------

  lemma {:induction false} AllResolve(flow: Flow, state: RunState, ctx: TemplateContext, targets: seq<StepId>)
    requires forall t :: t in targets && t != DONE ==> flow.Defined(t) && ResolveInput(flow.StepOf(t).value, ctx).Ok?
    ensures ActivateTargets(flow, state, ctx, targets).Ok?
  {
    hide ResolveInput, NeedsSatisfied;
    if targets != [] {
      assert targets == [targets[0]] + targets[1..];
      AllResolve(flow, state, ctx, targets[1..]);
      assert targets[0] in targets;
    }
  }

  /** The approval is accepted and starts the step again, beside other targets at most. */
  lemma Approval(flow: Flow, id: StepId, comment: Option<string>, output: Value, base: RunState, r: Run)
      returns (e: Effect)
    requires Loops(flow, id, comment, output, base, r)
    ensures Enabled(r.state, Event.StepApproved(id, comment))
    ensures Transition(flow, r.state, Event.StepApproved(id, comment)) == Ok(e)
    ensures e.next == ApprovedState(r.state, id, comment) && e.finish.None?
    ensures e.mark == Some(Mark(id, StepStatus.Completed)) && e.cancels == []
    ensures id in ActIds(e.activations) && forall x :: x in ActIds(e.activations) ==> x == id || Beside(flow, id, x)
  {
    var next := ApprovedState(r.state, id, comment);
    var targets, ctx := OnApprove(flow, id), BuildContext(flow, next);
    hide BuildContext, ResolveInput, ActivateTargets, NeedsSatisfied, SameBesides, AllTerminal, Phase, Unreached,
         ActIds, ApprovedState;
    AllResolve(flow, next, ctx, targets);
    ActivatedTargets(flow, next, ctx, targets);
    var acts := ActivateTargets(flow, next, ctx, targets).value;
    NoActs(acts, id);
    e := Effect(Some(Mark(id, StepStatus.Completed)), [], next, acts, [], None);
  }

  lemma NoActs(acts: seq<StepActivation>, id: StepId)
    ensures id in ActIds(acts) ==> acts != []
  {
  }

  /** The rows after the approval and the next completion. */
  lemma RoundRows(flow: Flow, id: StepId, comment: Option<string>, output: Value, base: RunState, r: Run, e: Effect)
    requires Loops(flow, id, comment, output, base, r)
    requires Transition(flow, r.state, Event.StepApproved(id, comment)) == Ok(e)
    requires e.mark == Some(Mark(id, StepStatus.Completed)) && e.cancels == [] && id in ActIds(e.activations)
    requires forall x :: x in ActIds(e.activations) ==> x == id || Beside(flow, id, x)
    ensures var after := After(r, e, |e.activations|).state.steps;
            && id in after && Fresh(after[id])
            && forall x :: x != id && !Beside(flow, id, x) ==>
                (x in after <==> x in r.state.steps) && (x in after ==> after[x] == r.state.steps[x])
  {
    var event, n := Event.StepApproved(id, comment), |e.activations|;
    hide Transition, NoVerdictYet, KeepsResolving, SameBesides, NeedsSatisfied, Ends, Core.Activates, After, ActIds,
         CancelIds, MarkedSteps, OnApprove, Beside;
    assert e.activations[..n] == e.activations;
    AfterRows(flow, r, event, e, n);
    var after := After(r, e, n).state.steps;
    assert RowAfter(r.state.steps, event, e, n, after, id);
    forall x | x != id && !Beside(flow, id, x)
      ensures (x in after <==> x in r.state.steps) && (x in after ==> after[x] == r.state.steps[x]) {
      assert RowAfter(r.state.steps, event, e, n, after, x);
    }
  }

  function ApproveMove(flow: Flow, r: Run, id: StepId, comment: Option<string>): (m: Move)
    ensures m.Did? && m.event == Event.StepApproved(id, comment)
  {
    var event := Event.StepApproved(id, comment);
    Did(event, match Transition(flow, r.state, event) case Ok(e) => |e.activations| case Err(_) => 0)
  }

  /** One approval and one completion later the step waits again, and all is as before. */
  lemma Round(flow: Flow, id: StepId, comment: Option<string>, output: Value, base: RunState, r: Run)
    requires Loops(flow, id, comment, output, base, r)
    ensures var m1, m2 := ApproveMove(flow, r, id, comment), Did(Event.StepCompleted(id, output), 0);
            && CanMove(flow, r, m1) && CanMove(flow, Moved(flow, r, m1), m2)
            && Loops(flow, id, comment, output, base, Moved(flow, Moved(flow, r, m1), m2))
  {
    var m1, m2 := ApproveMove(flow, r, id, comment), Did(Event.StepCompleted(id, output), 0);
    hide *;
    var e := Approval(flow, id, comment, output, base, r);
    RoundRows(flow, id, comment, output, base, r, e);
    NoActs(e.activations, id);
    Looping(flow, id, comment, output, base, r);
    var r1 := After(r, e, |e.activations|);
    Approved(flow, id, comment, r, e);
    MoveKeepsNoVerdict(flow, r, m1);
    RunsAgain(r1.state, id);
    Completion(flow, id, output, r1);
    MoveKeepsNoVerdict(flow, r1, m2);
    Waits(r1.state, Moved(flow, r1, m2).state, id, output);
    SameAgain(flow, id, comment, output, base, r, Moved(flow, r1, m2));
  }

  lemma Looping(flow: Flow, id: StepId, comment: Option<string>, output: Value, base: RunState, r: Run)
    requires Loops(flow, id, comment, output, base, r)
    ensures r.phase == RunPhase.Running && NoVerdictYet(r.state.steps) && flow.Defined(id)
    ensures flow.StepOf(id).value.humanLoop
  {
    hide KeepsResolving, SameBesides, NeedsSatisfied;
  }

  lemma RunsAgain(state: RunState, id: StepId)
    requires id in state.steps && Fresh(state.steps[id])
    ensures HasStatus(state, id, StepStatus.Running)
  {
  }

  lemma Waits(before: RunState, after: RunState, id: StepId, output: Value)
    requires id in before.steps
    requires after == before.(steps := before.steps[id := WaitingRun(before.steps[id], output)])
    ensures HasStatus(after, id, WaitingApproval) && after.steps[id].output == Some(output)
    ensures after.inputs == before.inputs && after.trigger == before.trigger
    ensures forall x :: x != id ==>
              (x in after.steps <==> x in before.steps) && (x in after.steps ==> after.steps[x] == before.steps[x])
  {
  }

  lemma Approved(flow: Flow, id: StepId, comment: Option<string>, r: Run, e: Effect)
    requires r.phase == RunPhase.Running && Enabled(r.state, Event.StepApproved(id, comment))
    requires Transition(flow, r.state, Event.StepApproved(id, comment)) == Ok(e) && e.activations != []
    requires e.finish.None?
    ensures var m, r1 := ApproveMove(flow, r, id, comment), After(r, e, |e.activations|);
            && CanMove(flow, r, m) && Moved(flow, r, m) == r1
            && r1.phase == RunPhase.Running && r1.state.inputs == r.state.inputs && r1.state.trigger == r.state.trigger
  {
    hide Transition, Enabled, Overlay;
  }

  lemma Completion(flow: Flow, id: StepId, output: Value, r: Run)
    requires flow.Defined(id) && flow.StepOf(id).value.humanLoop && r.phase == RunPhase.Running
    requires HasStatus(r.state, id, StepStatus.Running)
    ensures var m := Did(Event.StepCompleted(id, output), 0);
            && CanMove(flow, r, m)
            && Moved(flow, r, m).phase == RunPhase.Running
            && Moved(flow, r, m).state == r.state.(steps := r.state.steps[id := WaitingRun(r.state.steps[id], output)])
  {
  }

  lemma SameAgain(flow: Flow, id: StepId, comment: Option<string>, output: Value, base: RunState, r: Run, r2: Run)
    requires Loops(flow, id, comment, output, base, r)
    requires r2.phase == RunPhase.Running && NoVerdictYet(r2.state.steps)
    requires r2.state.inputs == r.state.inputs && r2.state.trigger == r.state.trigger
    requires HasStatus(r2.state, id, WaitingApproval) && r2.state.steps[id].output == Some(output)
    requires forall x :: x != id && !Beside(flow, id, x) ==>
               (x in r2.state.steps <==> x in r.state.steps)
               && (x in r2.state.steps ==> r2.state.steps[x] == r.state.steps[x])
    ensures Loops(flow, id, comment, output, base, r2)
  {
    var next, next2 := ApprovedState(r.state, id, comment), ApprovedState(r2.state, id, comment);
    hide KeepsResolving, BuildContext;
    assert ContextOf(next.steps[id]) == ContextOf(next2.steps[id]);
  }

  // ----- as many rounds as anybody likes ------------------------------------------------

  predicate OfStep(m: Move, id: StepId) {
    m.Did? && (m.event.StepApproved? || m.event.StepCompleted?) && m.event.stepId == id
  }

  lemma {:induction false} Rounds(flow: Flow, id: StepId, comment: Option<string>, output: Value, base: RunState,
                                  start: Run, moves: seq<Move>, n: nat)
    returns (all: seq<Move>)
    requires Playable(flow, start, moves) && Loops(flow, id, comment, output, base, Play(flow, start, moves))
    ensures |all| == |moves| + 2 * n && all[..|moves|] == moves
    ensures Playable(flow, start, all) && Loops(flow, id, comment, output, base, Play(flow, start, all))
    ensures FanInRuns.CountApprovals(all) == FanInRuns.CountApprovals(moves) + n
    ensures forall i :: |moves| <= i < |all| ==> OfStep(all[i], id)
  {
    hide *;
    all := moves;
    if n > 0 {
      all := Rounds(flow, id, comment, output, base, start, moves, n - 1);
      var r := Play(flow, start, all);
      var m1, m2 := ApproveMove(flow, r, id, comment), Did(Event.StepCompleted(id, output), 0);
      Round(flow, id, comment, output, base, r);
      PlaySnoc(flow, start, all, m1);
      PlaySnoc(flow, start, all + [m1], m2);
      CountRound(all, m1, m2, id, comment, output);
      all := all + [m1] + [m2];
    }
  }

  lemma CountRound(moves: seq<Move>, m1: Move, m2: Move, id: StepId, comment: Option<string>, output: Value)
    requires m1.Did? && m1.event == Event.StepApproved(id, comment) && m2 == Did(Event.StepCompleted(id, output), 0)
    ensures FanInRuns.CountApprovals(moves + [m1] + [m2]) == FanInRuns.CountApprovals(moves) + 1
    ensures OfStep(m1, id) && OfStep(m2, id)
  {
    assert (moves + [m1])[..|moves|] == moves && (moves + [m1] + [m2])[..|moves| + 1] == moves + [m1];
  }

  /** Wherever a run waits for a step that names itself on approval, with its gate open to
      itself and inputs that resolve, the run has a continuation of `n` approvals, for every
      `n`: all of them of that step, and the step waits again. */
  lemma RunsForever(new_: NewRun, moves: seq<Move>, id: StepId, comment: Option<string>, n: nat)
      returns (all: seq<Move>)
    requires Playable(new_.definition, NewPlay(new_), moves) && ApprovesItself(new_.definition, id)
    requires var r := Play(new_.definition, NewPlay(new_), moves);
             && r.phase == RunPhase.Running && HasStatus(r.state, id, WaitingApproval) && r.state.steps[id].output.Some?
             && NeedsSatisfied(new_.definition, ApprovedState(r.state, id, comment), new_.definition.StepOf(id).value)
             && KeepsResolving(new_.definition, id, ApprovedState(r.state, id, comment))
    ensures |all| == |moves| + 2 * n && all[..|moves|] == moves
    ensures Playable(new_.definition, NewPlay(new_), all)
    ensures FanInRuns.CountApprovals(all) == FanInRuns.CountApprovals(moves) + n
    ensures forall i :: |moves| <= i < |all| ==> OfStep(all[i], id)
    ensures var r := Play(new_.definition, NewPlay(new_), all);
            r.phase == RunPhase.Running && HasStatus(r.state, id, WaitingApproval)
  {
    var flow, r := new_.definition, Play(new_.definition, NewPlay(new_), moves);
    var output, base := r.state.steps[id].output.value, ApprovedState(r.state, id, comment);
    PlayInvariant(new_, moves);
    StartsLooping(flow, id, comment, output, r);
    hide *;
    all := Rounds(flow, id, comment, output, base, NewPlay(new_), moves, n);
    StillWaits(flow, id, comment, output, base, Play(flow, NewPlay(new_), all));
  }

  lemma StartsLooping(flow: Flow, id: StepId, comment: Option<string>, output: Value, r: Run)
    requires Invariant(flow, r) && ApprovesItself(flow, id)
    requires r.phase == RunPhase.Running && HasStatus(r.state, id, WaitingApproval)
    requires r.state.steps[id].output == Some(output)
    requires NeedsSatisfied(flow, ApprovedState(r.state, id, comment), flow.StepOf(id).value)
    requires KeepsResolving(flow, id, ApprovedState(r.state, id, comment))
    ensures Loops(flow, id, comment, output, ApprovedState(r.state, id, comment), r)
  {
    hide RowsSound, FailuresSpent, PhaseTracks, LogAgrees, EndsOnce, KeepsResolving, NeedsSatisfied;
  }

  lemma StillWaits(flow: Flow, id: StepId, comment: Option<string>, output: Value, base: RunState, r: Run)
    requires Loops(flow, id, comment, output, base, r)
    ensures r.phase == RunPhase.Running && HasStatus(r.state, id, WaitingApproval)
  {
    hide KeepsResolving, NeedsSatisfied, SameBesides;
  }

  /** When the approval leads to the step alone, its input has to resolve just once. */
  lemma AloneKeepsResolving(flow: Flow, id: StepId, base: RunState)
    requires flow.Defined(id) && forall t :: t in OnApprove(flow, id) ==> t == id || t == DONE
    requires ResolveInput(flow.StepOf(id).value, BuildContext(flow, base)).Ok?
    ensures KeepsResolving(flow, id, base)
  {
    hide ResolveInput;
    forall s: RunState, t | SameBesides(flow, id, base, s) && t in OnApprove(flow, id) && t != DONE
      ensures flow.Defined(t) && ResolveInput(flow.StepOf(t).value, BuildContext(flow, s)).Ok?
    {
      SameContexts(flow, id, base, s);
    }
  }

  lemma SameContexts(flow: Flow, id: StepId, a: RunState, b: RunState)
    requires flow.Defined(id) && SameBesides(flow, id, a, b)
    requires forall t :: t in OnApprove(flow, id) ==> t == id || t == DONE
    ensures BuildContext(flow, a) == BuildContext(flow, b)
  {
    assert forall x :: !Beside(flow, id, x);
    assert BuildContext(flow, a).steps == BuildContext(flow, b).steps;
  }
}
