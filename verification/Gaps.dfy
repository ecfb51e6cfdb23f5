/** One-step flows: two that the validator accepts although runs of them go wrong, and one that
    names itself on a route it never follows. */
module Gaps {
  import opened Wrappers
  import opened FlowTypes
  import opened Closure
  import opened Template
  import opened RunTypes
  import opened Engine
  import opened Dag
  import opened Validate
  import opened Store
  import opened Core
  import opened Machine
  import opened Soundness
  import opened Termination
  import opened Entries
  import opened Confluence
  import opened Samples
  import FanInRuns
  import SelfApproval
  import Witnesses

  /** A one-step flow. */
  function Single(step: Step): Flow {
    Flow("single", [], FlowDefaults(None, None), [step])
  }

  ghost predicate NoEdges(flow: Flow) {
    forall s, t :: s in flow.steps && t in AllRoutes(s) ==> !Counts(s, t)
  }

  lemma NoEdgesAcyclic(flow: Flow)
    requires NoEdges(flow)
    ensures ForwardAcyclic(flow)
  {
    assert forall a, b :: !ForwardEdge(flow, a, b);
    assert forall adj: Graph, path: seq<StepId> :: IsForwardAdjacency(flow, adj) && |path| >= 2 ==>
        path[1] !in Next(adj, path[0]);
  }

  lemma SingleEntry(step: Step)
    requires NoEdges(Single(step))
    ensures Sources(Single(step), step.id) == [] && EntrySteps(Single(step)) == [step.id]
  {
    var flow := Single(step);
    SourcesAreEdges(flow, step.id);
    assert forall a :: !Edge(flow, a, step.id);
    SomeMember(Sources(flow, step.id));
    assert flow.steps[..0] == [] && flow.steps[0] == step;
    assert step.id !in Targeted(flow);
    assert FilterIds(flow.steps[..0], Targeted(flow)) == [];
    assert FilterIds(flow.steps, Targeted(flow)) == [step.id];
  }

  lemma EmptyInputNoRefs()
    ensures StepRefs("") == []
  {
  }

  lemma SingleAccepted(step: Step)
    requires NoEdges(Single(step)) && step.with.input == "" && step.rejectInput.None? && step.needs == []
    requires ValidId(step.id) && HumanLoopPaired(Single(step), step)
    requires forall t :: t in AllRoutes(step) ==> t == DONE || t == step.id
    ensures Accepted(Single(step))
  {
    var flow := Single(step);
    NoEdgesAcyclic(flow);
    SingleEntry(step);
    EmptyInputNoRefs();
    assert flow.StepOf(step.id) == Some(step);
    assert TemplateRefs(step) == [];
    hide ForwardAcyclic, EntrySteps, Sources;
    assert StepRules(flow, step);
    assert RefsGuaranteed(flow, step);
  }

  // ----- a flow that approves itself forever --------------------------------------------

  /** A human step whose approval and rejection both lead back to it. */
  const ASK: Step := Step("ask", PLAIN, true, 0, None, None, None, Some(One("ask")), Some(One("ask")), [])

  /** Approving the step leads to it alone, and its input always resolves. */
  lemma AskLoops(state: RunState)
    ensures SelfApproval.ApprovesItself(Single(ASK), ASK.id) && SelfApproval.KeepsResolving(Single(ASK), ASK.id, state)
    ensures NeedsSatisfied(Single(ASK), state, ASK)
  {
    assert |"ask"| == 3 && |DONE| == 4 && Single(ASK).StepOf("ask") == Some(ASK);
    assert SelfApproval.OnApprove(Single(ASK), "ask") == ["ask"];
    hide ResolveInput, BuildContext, SelfApproval.OnApprove, SelfApproval.KeepsResolving;
    Witnesses.PlainResolves(ASK, BuildContext(Single(ASK), state));
    SelfApproval.AloneKeepsResolving(Single(ASK), "ask", state);
  }

  lemma AskStarts()
    ensures EntrySteps(Single(ASK)) == [ASK.id] && Single(ASK).StepOf(ASK.id) == Some(ASK)
    ensures Startable(Single(ASK), ASK.id) && Witnesses.Plain(ASK) && ASK.humanLoop
  {
    assert NoEdges(Single(ASK)) && |"ask"| == 3 && |DONE| == 4;
    SingleEntry(ASK);
    hide EntrySteps;
  }

  /** A move that is neither a failure nor a rejection. */
  predicate Progress(m: Move) {
    m.Did? && (m.event.RunStarted? || m.event.StepCompleted? || m.event.StepApproved?)
  }

  lemma Reviewings(id: StepId, output: Value)
    ensures var moves := Witnesses.Reviewing(id, output);
            |moves| == 2 && FanInRuns.CountApprovals(moves) == 0 && forall i :: 0 <= i < 2 ==> Progress(moves[i])
  {
    var moves := Witnesses.Reviewing(id, output);
    var one := moves[..1];
    assert one == [moves[0]] && one[..0] == [] && FanInRuns.CountApprovals(one) == 0;
  }

  lemma AllProgress(moves: seq<Move>, id: StepId)
    requires |moves| >= 2 && forall i :: 0 <= i < 2 ==> Progress(moves[i])
    requires forall i :: 2 <= i < |moves| ==> SelfApproval.OfStep(moves[i], id)
    ensures forall m :: m in moves ==> Progress(m)
  {
  }

  /** The validator accepts this flow, and for every `n` it has a run of `n` approvals, with no
      failure and no rejection, that is still Running: acceptance does not bound runs. */
  lemma AcceptedRunsForever(new_: NewRun, n: nat) returns (moves: seq<Move>)
    requires new_.definition == Single(ASK)
    ensures Accepted(Single(ASK)) && HandsToItself(ASK)
    ensures Playable(new_.definition, NewPlay(new_), moves)
    ensures FanInRuns.CountApprovals(moves) == n && forall m :: m in moves ==> Progress(m)
    ensures var r := Play(new_.definition, NewPlay(new_), moves);
            r.phase == RunPhase.Running && HasStatus(r.state, ASK.id, WaitingApproval)
  {
    hide *;
    var flow, first := new_.definition, Witnesses.Reviewing(ASK.id, JNULL);
    AskAccepted();
    AskStarts();
    Witnesses.EntryWaits(new_, ASK, JNULL);
    Reviewings(ASK.id, JNULL);
    AskLoops(ApprovedState(Play(flow, NewPlay(new_), first).state, ASK.id, None));
    moves := SelfApproval.RunsForever(new_, first, ASK.id, None, n);
    assert forall i :: 0 <= i < 2 ==> moves[i] == moves[..2][i];
    AllProgress(moves, ASK.id);
  }

  lemma AskAccepted()
    ensures Accepted(Single(ASK)) && HandsToItself(ASK)
  {
    assert NoEdges(Single(ASK));
    assert ValidId("ask");
    SingleAccepted(ASK);
  }

  // ----- a flow that only looks as if it did --------------------------------------------

  /** A human step that names itself as its success: a person decides on it, so that route is
      never followed. */
  const QUIET: Step := Step("ask", PLAIN, true, 0, None, Some(One("ask")), None, Some(One(DONE)), Some(One("ask")), [])

  lemma QuietAccepted()
    ensures Accepted(Single(QUIET)) && NoEdges(Single(QUIET)) && !HandsToItself(QUIET)
    ensures QUIET.id in ForwardRoutes(QUIET) && RetriesUpTo(Single(QUIET), 0)
  {
    assert NoEdges(Single(QUIET));
    QuietRoutes();
    hide AllRoutes, ForwardRoutes, NoEdges, HandsToItself;
    SingleAccepted(QUIET);
  }

  lemma QuietRoutes()
    ensures AllRoutes(QUIET) == ["ask", DONE, "ask"] && QUIET.id in ForwardRoutes(QUIET) && !HandsToItself(QUIET)
    ensures ValidId(QUIET.id) && HumanLoopPaired(Single(QUIET), QUIET)
  {
    assert |"ask"| == 3 && |DONE| == 4;
    assert SuccessRoute(QUIET) == [DONE];
  }

  /** A flow without edges is layered unless its step hands over to itself. */
  lemma SingleLayered(step: Step)
    requires NoEdges(Single(step)) && step.onFailure.None?
    ensures UniqueIds(Single(step))
    ensures (exists layers, top :: Layered(Single(step), layers, top)) <==> !HandsToItself(step)
  {
    var flow := Single(step);
    hide Layered, HandsToItself, AllRoutes, Counts;
    assert forall a, b :: !ForwardEdge(flow, a, b) by { NoEdgesForward(flow); }
    assert FailureFalls(flow, map[]);
    LayeredExactly(flow, map[]);
    assert flow.steps[0] == step;
  }

  lemma NoEdgesForward(flow: Flow)
    requires NoEdges(flow)
    ensures forall a, b :: !ForwardEdge(flow, a, b)
  {
  }

  lemma RunEnds(new_: NewRun, layers: map<StepId, nat>, top: nat, moves: seq<Move>)
    requires Layered(new_.definition, layers, top) && UniqueIds(new_.definition) && RetriesUpTo(new_.definition, 0)
    requires Playable(new_.definition, NewPlay(new_), moves)
    ensures CountSteps(moves) <= StartWeight(new_.definition, layers, top) + CountLoops(new_.definition, moves) * 2
  {
    hide *;
    RunsEnd(new_, layers, top, 0, moves);
  }

  /** Runs of that flow end: their step events are bounded by a fixed weight and an allowance
      of two for each rejection. */
  lemma QuietRunsEnd() returns (bound: nat)
    ensures Accepted(Single(QUIET)) && QUIET.id in ForwardRoutes(QUIET) && !HandsToItself(QUIET)
    ensures forall new_: NewRun, moves ::
              new_.definition == Single(QUIET) && Playable(new_.definition, NewPlay(new_), moves) ==>
                CountSteps(moves) <= bound + CountLoops(new_.definition, moves) * 2
  {
    hide *;
    QuietAccepted();
    QuietHasNoFailure();
    SingleLayered(QUIET);
    var layers, top :| Layered(Single(QUIET), layers, top);
    bound := StartWeight(Single(QUIET), layers, top);
    forall new_: NewRun, moves | new_.definition == Single(QUIET) && Playable(new_.definition, NewPlay(new_), moves)
      ensures CountSteps(moves) <= bound + CountLoops(new_.definition, moves) * 2
    {
      RunEnds(new_, layers, top, moves);
    }
  }

  lemma QuietHasNoFailure()
    ensures QUIET.onFailure.None?
  {
  }

  // ----- a flow that never starts -------------------------------------------------------

  const NAMED_DONE: Step := Step(DONE, PLAIN, false, 0, None, None, None, None, None, [])

  /** The validator accepts a flow whose only step is called `done`; starting it activates
      nothing and decides nothing. */
  lemma DoneNeverStarts(state: RunState)
    requires state.steps == map[]
    ensures Accepted(Single(NAMED_DONE))
    ensures Decide(Single(NAMED_DONE), state, Event.RunStarted) == Ok([])
  {
    assert NoEdges(Single(NAMED_DONE)) && ValidId(DONE);
    SingleAccepted(NAMED_DONE);
    SingleEntry(NAMED_DONE);
    hide EntrySteps, BuildContext, Accepted;
    var ctx := BuildContext(Single(NAMED_DONE), state);
    assert [DONE][1..] == [] && ActivateTargets(Single(NAMED_DONE), state, ctx, []) == Ok([]);
    assert ActivateTargets(Single(NAMED_DONE), state, ctx, [DONE]) == Ok([]);
  }
}
