/** Accepted flows and the runs they have: concrete inputs behind the exact conditions stated
    for fan-in, failure joins, approvals, starts and quoted outputs. Each is stated for every
    flow of a shape, followed by one flow of that shape. */
module Witnesses {
  import opened Wrappers
  import opened FlowTypes
  import opened Template
  import opened RunTypes
  import opened Engine
  import opened Dag
  import opened Validate
  import opened Ports
  import opened Store
  import opened Scheduler
  import opened Core
  import opened Machine
  import opened Invariants
  import opened Rows
  import opened Soundness
  import opened Confluence
  import opened Samples
  import FanInRuns
  import FailureJoins
  import Activations
  import SelfApproval
  import Legality
  import Laps
  import Entries
  import Outputs
  import Arguments
  import Paths
  import opened Refinement
  import TemplateProofs

  // ----- starting -----------------------------------------------------------------------

  predicate Plain(s: Step) {
    s.with.input == ""
  }

  lemma PlainResolves(s: Step, ctx: TemplateContext)
    requires Plain(s)
    ensures ResolveInput(s, ctx) == Ok("")
  {
  }

  /** Routes to plain steps are never refused. */
  lemma PlainRoutes(flow: Flow, state: RunState, ctx: TemplateContext, targets: seq<StepId>)
    requires forall t :: t in targets && t != DONE ==> flow.Defined(t) && Plain(flow.StepOf(t).value)
    ensures ActivateTargets(flow, state, ctx, targets).Ok?
  {
    hide ResolveInput, ActivateTargets;
    forall t | t in targets && t != DONE ensures flow.Defined(t) && ResolveInput(flow.StepOf(t).value, ctx).Ok? {
      PlainResolves(flow.StepOf(t).value, ctx);
    }
    SelfApproval.AllResolve(flow, state, ctx, targets);
  }

  const START: Move := Did(Event.RunStarted, 1)

  /** A run of one step, just started. */
  function Begun(new_: NewRun, first: StepId): Run {
    var state := NewPlay(new_).state;
    Run(state.(steps := map[first := ActivatedRun(StepActivation(first, 1, ""))]), RunPhase.Running,
        [RunEventRecord(StepActivated, Some(first))])
  }

  lemma Starts(new_: NewRun, first: StepId)
    requires EntrySteps(new_.definition) == [first] && Startable(new_.definition, first)
    requires Plain(new_.definition.StepOf(first).value)
    ensures var flow, start := new_.definition, NewPlay(new_);
            && HappyPlay(flow, start, [START]) && Playable(flow, start, [START])
            && Play(flow, start, [START]) == Begun(new_, first)
  {
    var flow, start := new_.definition, NewPlay(new_);
    var e := Effect(None, [], start.state, [StepActivation(first, 1, "")], [], None);
    StartEffect(new_, first, e);
    hide *;
    StartMoves(flow, start, e);
    AfterStart(new_, first, e);
    HappyIsPlayable(flow, start, [START]);
    PlaySnoc(flow, start, [], START);
    NothingPlayed(flow, start);
  }

  lemma StartEffect(new_: NewRun, first: StepId, e: Effect)
    requires EntrySteps(new_.definition) == [first] && Startable(new_.definition, first)
    requires Plain(new_.definition.StepOf(first).value)
    requires e == Effect(None, [], NewPlay(new_).state, [StepActivation(first, 1, "")], [], None)
    ensures NewPlay(new_).phase == RunPhase.Running && Enabled(NewPlay(new_).state, Event.RunStarted)
    ensures Transition(new_.definition, NewPlay(new_).state, Event.RunStarted) == Ok(e)
  {
    var flow, state := new_.definition, NewPlay(new_).state;
    hide Transition, EntrySteps, BuildContext, ResolveInput, Plain;
    StartedEntry(flow, state, first);
    PlainResolves(flow.StepOf(first).value, BuildContext(flow, state));
  }

  lemma NothingPlayed(flow: Flow, start: Run)
    ensures Play(flow, start, []) == start && [] + [START] == [START]
  {
  }

  lemma StartMoves(flow: Flow, start: Run, e: Effect)
    requires start.phase == RunPhase.Running && Enabled(start.state, Event.RunStarted)
    requires Transition(flow, start.state, Event.RunStarted) == Ok(e) && |e.activations| == 1
    ensures HappyPlay(flow, start, [START]) && CanMove(flow, start, START)
    ensures Moved(flow, start, START) == After(start, e, 1)
  {
    hide Transition, Enabled, After;
    assert [START][..0] == [];
  }

  lemma AfterStart(new_: NewRun, first: StepId, e: Effect)
    requires e == Effect(None, [], NewPlay(new_).state, [StepActivation(first, 1, "")], [], None)
    ensures After(NewPlay(new_), e, 1) == Begun(new_, first)
  {
    var act := StepActivation(first, 1, "");
    OneOverlaid(NewPlay(new_).state.steps, [act]);
    OneNoted(act);
    hide Overlay, ActNotes;
  }

  lemma OneNoted(act: StepActivation)
    ensures ActNotes([act]) == [RunEventRecord(StepActivated, Some(act.stepId))]
  {
    assert [act][..0] == [];
  }

  // ----- fan-out ------------------------------------------------------------------------

  lemma FanFeeds(flow: Flow, build: Step, left: Step, right: Step, gate: Step, report: Step, s: StepId, t: StepId)
    requires FanShape(flow, build, left, right, gate, report)
    ensures Feeds(flow, s, t) <==>
              || (s == build.id && (t == left.id || t == right.id))
              || ((s == left.id || s == right.id) && t == gate.id)
  {
    hide *;
    FanMembers(flow, build, left, right, gate, report);
    FanGates(flow, build, left, right, gate, report);
    FanDistinct(flow, build, left, right, gate, report);
    FanSuccess(flow, build, left, right, gate, report);
    InTwo(left.id, right.id);
    InOne(gate.id);
    InOne(DONE);
    FedBy(flow, build, t);
    FedBy(flow, left, t);
    FedBy(flow, right, t);
    FedBy(flow, gate, t);
    FedBy(flow, report, t);
    if Feeds(flow, s, t) {
      var step := FeedingStep(flow, s, t);
      FanMember(flow, build, left, right, gate, report, step);
    }
  }

  lemma FedBy(flow: Flow, s: Step, t: StepId)
    requires UniqueIds(flow) && s in flow.steps
    ensures Feeds(flow, s.id, t) <==> t != DONE && t in SuccessRoute(s)
  {
    StepOfUnique(flow, s);
  }

  lemma FeedingStep(flow: Flow, s: StepId, t: StepId) returns (step: Step)
    requires Feeds(flow, s, t)
    ensures step in flow.steps && step.id == s
  {
    step := flow.StepOf(s).value;
  }

  lemma FanSuccess(flow: Flow, build: Step, left: Step, right: Step, gate: Step, report: Step)
    requires FanShape(flow, build, left, right, gate, report)
    ensures SuccessRoute(build) == [left.id, right.id] && SuccessRoute(left) == [gate.id]
    ensures SuccessRoute(right) == [gate.id]
    ensures SuccessRoute(gate) == [DONE] && SuccessRoute(report) == [DONE]
  {
    FanListed(flow, build, left, right, gate, report);
    hide FanShape;
  }

  lemma GateBy(flow: Flow, s: Step, feeders: set<StepId>)
    requires UniqueIds(flow) && s in flow.steps && forall n :: n in s.needs <==> n in feeders
    requires forall x :: Feeds(flow, x, s.id) <==> x in feeders
    requires s.needs == [] ==> feeders == {}
    ensures flow.Defined(s.id) && NeedsAreFeeders(flow, s.id)
  {
    StepOfUnique(flow, s);
  }

  lemma FanNeedsFeeders(flow: Flow, build: Step, left: Step, right: Step, gate: Step, report: Step, s: Step)
    requires FanShape(flow, build, left, right, gate, report) && s in flow.steps && HasFeeder(flow, s.id)
    ensures flow.Defined(s.id) && NeedsAreFeeders(flow, s.id)
  {
    hide *;
    FanMember(flow, build, left, right, gate, report, s);
    FanMembers(flow, build, left, right, gate, report);
    FanGates(flow, build, left, right, gate, report);
    FanDistinct(flow, build, left, right, gate, report);
    InTwo(left.id, right.id);
    InOne(build.id);
    forall x ensures Feeds(flow, x, s.id) <==>
              || (x == build.id && (s.id == left.id || s.id == right.id))
              || ((x == left.id || x == right.id) && s.id == gate.id)
    {
      FanFeeds(flow, build, left, right, gate, report, x, s.id);
    }
    SomeFeeder(flow, s.id);
    GateBy(flow, s, if s == gate then {left.id, right.id} else {build.id});
  }

  lemma SomeFeeder(flow: Flow, id: StepId)
    requires HasFeeder(flow, id)
    ensures exists x :: Feeds(flow, x, id)
  {
  }

  /** The confluence results apply to a flow built like the fan-out flow of the fixtures, in
      which a last step collects the failures of the others and lists them as needs. */
  lemma FanOutFansIn(flow: Flow, build: Step, left: Step, right: Step, gate: Step, report: Step)
    requires FanShape(flow, build, left, right, gate, report)
    ensures Accepted(flow) && FanIn(flow)
  {
    hide *;
    FanAccepted(flow, build, left, right, gate, report);
    FanMembers(flow, build, left, right, gate, report);
    FanGates(flow, build, left, right, gate, report);
    FanDistinct(flow, build, left, right, gate, report);
    forall s, t ensures Feeds(flow, s, t) ==> flow.Defined(t) && t != build.id {
      FanFeeds(flow, build, left, right, gate, report, s, t);
    }
    forall id | flow.Defined(id) && HasFeeder(flow, id) ensures NeedsAreFeeders(flow, id) {
      var s := Listed(flow, id);
      FanNeedsFeeders(flow, build, left, right, gate, report, s);
    }
    OnlyEntryIs(flow, build);
    FansIn(flow, build.id);
  }

  lemma Listed(flow: Flow, id: StepId) returns (s: Step)
    requires flow.Defined(id)
    ensures s in flow.steps && s.id == id
  {
    s := flow.StepOf(id).value;
  }

  lemma OnlyEntryIs(flow: Flow, s: Step)
    requires EntrySteps(flow) == [s.id] && s.id != DONE && UniqueIds(flow) && s in flow.steps
    ensures forall id :: IsEntry(flow, id) <==> id == s.id
    ensures flow.StepOf(s.id) == Some(s)
  {
    StepOfUnique(flow, s);
    hide EntrySteps;
  }

  lemma FansIn(flow: Flow, entry: StepId)
    requires forall s, t :: Feeds(flow, s, t) ==> flow.Defined(t) && t != entry
    requires forall id :: flow.Defined(id) && HasFeeder(flow, id) ==> NeedsAreFeeders(flow, id)
    requires forall id :: IsEntry(flow, id) <==> id == entry
    requires flow.Defined(entry) && flow.StepOf(entry).value.needs == []
    ensures FanIn(flow)
  {
    hide Feeds, HasFeeder, NeedsAreFeeders, IsEntry;
  }

  // ----- a target listed twice ----------------------------------------------------------

  /** The first step lists the second twice on success, and the second needs it. */
  ghost predicate Doubled(flow: Flow, first: Step, second: Step) {
    && PairShape(flow, first, second) && !first.humanLoop && !second.humanLoop && Plain(first) && Plain(second)
    && first.onSuccess == Some(Many([second.id, second.id])) && second.onSuccess == Some(One(DONE))
    && first.needs == [] && second.needs == [first.id]
  }

  lemma DoubledGates(flow: Flow, first: Step, second: Step)
    requires Doubled(flow, first, second)
    ensures PairShape(flow, first, second) && first.needs == [] && second.needs == [first.id]
    ensures SuccessRoute(first) == [second.id, second.id] && SuccessRoute(second) == [DONE]
    ensures Plain(first) && Plain(second) && !first.humanLoop && !second.humanLoop
  {
    hide PairShape;
  }

  lemma DoubledFeeds(flow: Flow, first: Step, second: Step, s: StepId, t: StepId)
    requires Doubled(flow, first, second)
    ensures Feeds(flow, s, t) <==> s == first.id && t == second.id
  {
    hide *;
    DoubledGates(flow, first, second);
    PairBasics(flow, first, second);
    PairFacts(flow, first, second);
    FedBy(flow, first, t);
    FedBy(flow, second, t);
    InTwo(second.id, second.id);
    InOne(DONE);
    if Feeds(flow, s, t) {
      var step := FeedingStep(flow, s, t);
      assert step == first || step == second;
    }
  }

  lemma DoubledFansIn(flow: Flow, first: Step, second: Step)
    requires Doubled(flow, first, second)
    ensures Accepted(flow) && FanIn(flow) && EntrySteps(flow) == [first.id] && Startable(flow, first.id)
  {
    hide *;
    DoubledGates(flow, first, second);
    PairBasics(flow, first, second);
    PairFacts(flow, first, second);
    PairAccepted(flow, first, second);
    OnlyEntryIs(flow, first);
    forall s, t ensures Feeds(flow, s, t) <==> s == first.id && t == second.id {
      DoubledFeeds(flow, first, second, s, t);
    }
    InOne(first.id);
    GateBy(flow, second, {first.id});
    forall id | flow.Defined(id) && HasFeeder(flow, id) ensures NeedsAreFeeders(flow, id) {
      SomeFeeder(flow, id);
    }
    FansIn(flow, first.id);
    assert Startable(flow, first.id) by { CanStart(flow, first); }
  }

  lemma CanStart(flow: Flow, s: Step)
    requires flow.StepOf(s.id) == Some(s) && s.id != DONE && s.needs == []
    ensures Startable(flow, s.id)
  {
  }

  lemma BegunRow(new_: NewRun, first: StepId)
    ensures var r := Begun(new_, first);
            && r.phase == RunPhase.Running && r.state.steps.Keys == {first}
            && HasStatus(r.state, first, StepStatus.Running)
            && r.state.steps[first].attempt == 1 && NoVerdictYet(r.state.steps) && !r.state.cancelled
  {
  }

  /** A completion of a step that no person decides on follows its success route. */
  lemma CompletionRoutes(flow: Flow, state: RunState, s: Step, output: Value)
    requires flow.StepOf(s.id) == Some(s) && !s.humanLoop && HasStatus(state, s.id, StepStatus.Running)
    requires forall t :: t in SuccessRoute(s) && t != DONE ==> flow.Defined(t) && Plain(flow.StepOf(t).value)
    ensures var event := Event.StepCompleted(s.id, output);
            Happy(event) && Enabled(state, event) && Transition(flow, state, event).Ok?
            && TargetsOf(flow, state, event) == SuccessRoute(s)
  {
    var next := Upsert(state, s.id, StepStatus.Completed, Some(output));
    PlainRoutes(flow, next, BuildContext(flow, next), SuccessRoute(s));
    hide Upsert, BuildContext, ActivateTargets, AllTerminal, Phase, Unreached, Plain;
  }

  /** Within the flows whose gates name their feeders, a target listed twice is activated
      twice by one completion: the trail has two activations of it, the row shows one attempt. */
  lemma ActivatedTwice(new_: NewRun, first: Step, second: Step, output: Value) returns (moves: seq<Move>)
    requires Doubled(new_.definition, first, second)
    ensures Accepted(new_.definition) && FanIn(new_.definition) && HappyPlay(new_.definition, NewPlay(new_), moves)
    ensures var r := Play(new_.definition, NewPlay(new_), moves);
            && Activations.Activated(r.trail, second.id) == 2
            && second.id in r.state.steps && r.state.steps[second.id].attempt == 1
  {
    hide *;
    var flow, start := new_.definition, NewPlay(new_);
    DoubledGates(flow, first, second);
    PairBasics(flow, first, second);
    PairFacts(flow, first, second);
    DoubledFansIn(flow, first, second);
    Starts(new_, first.id);
    BegunRow(new_, first.id);
    var r, event := Begun(new_, first.id), Event.StepCompleted(first.id, output);
    InTwo(second.id, second.id);
    CompletionRoutes(flow, r.state, first, output);
    var e := Transition(flow, r.state, event).value;
    HappyAgain(new_, [START], event);
    moves := [START] + [Did(event, |e.activations|)];
    SecondRuns(new_, first, second, r, event, e, moves);
    var k := Activations.ActivatedAsListed(new_, moves, second.id);
    BySecondMove(flow, start, moves, k, first.id, second.id, r, event);
    FanInRuns.HappyPlaySteady(new_, moves);
    FirstAttempt(flow, Play(flow, start, moves).state.steps, second.id);
  }

  lemma HappyAgain(new_: NewRun, moves: seq<Move>, event: Event)
    requires HappyPlay(new_.definition, NewPlay(new_), moves) && Happy(event)
    requires var r := Play(new_.definition, NewPlay(new_), moves);
             r.phase == RunPhase.Running && Enabled(r.state, event) && Transition(new_.definition, r.state, event).Ok?
    ensures var r := Play(new_.definition, NewPlay(new_), moves);
            var e := Transition(new_.definition, r.state, event).value;
            var longer := moves + [Did(event, |e.activations|)];
            HappyPlay(new_.definition, NewPlay(new_), longer)
            && Play(new_.definition, NewPlay(new_), longer) == After(r, e, |e.activations|)
  {
    var r := Play(new_.definition, NewPlay(new_), moves);
    var e := Transition(new_.definition, r.state, event).value;
    FanInRuns.HappySnoc(new_.definition, NewPlay(new_), moves, event);
    PlaySnoc(new_.definition, NewPlay(new_), moves, Did(event, |e.activations|));
    HappyIsPlayable(new_.definition, NewPlay(new_), moves + [Did(event, |e.activations|)]);
    hide Transition, Enabled, After, HappyPlay;
  }

  lemma FirstAttempt(flow: Flow, steps: Steps, id: StepId)
    requires Steady(flow, steps) && id in steps
    ensures steps[id].attempt == 1
  {
    hide NothingEarly, NothingMissed;
  }

  /** After the first step completes, the second has a row. */
  lemma SecondRuns(new_: NewRun, first: Step, second: Step, r: Run, event: Event, e: Effect, moves: seq<Move>)
    requires Doubled(new_.definition, first, second) && HappyPlay(new_.definition, NewPlay(new_), [START])
    requires Play(new_.definition, NewPlay(new_), [START]) == r && NoVerdictYet(r.state.steps)
    requires event.StepCompleted? && event.stepId == first.id
    requires Enabled(r.state, event) && Transition(new_.definition, r.state, event) == Ok(e)
    requires Play(new_.definition, NewPlay(new_), moves) == After(r, e, |e.activations|)
    ensures second.id in Play(new_.definition, NewPlay(new_), moves).state.steps
  {
    hide *;
    var flow := new_.definition;
    DoubledGates(flow, first, second);
    PairBasics(flow, first, second);
    DoubledFansIn(flow, first, second);
    FanInRuns.HappyPlaySteady(new_, [START]);
    SettlingKeepsSteady(flow, r, event, e);
    var after := After(r, e, |e.activations|).state.steps;
    forall s, t ensures Feeds(flow, s, t) <==> s == first.id && t == second.id {
      DoubledFeeds(flow, first, second, s, t);
    }
    SoleFeeder(flow, after, first.id, second.id);
  }

  lemma SoleFeeder(flow: Flow, steps: Steps, source: StepId, t: StepId)
    requires (forall s :: Feeds(flow, s, t) <==> s == source) && Done(steps, source)
    ensures FeedersDone(flow, steps, t)
  {
    hide Feeds, Done;
  }

  /** The second move of such a run is the one that starts the second step. */
  lemma BySecondMove(flow: Flow, start: Run, moves: seq<Move>, k: nat, first: StepId, second: StepId, r: Run,
                     event: Event)
    requires |moves| == 2 && moves[0] == START && moves[1].Did? && moves[1].event == event
    requires Play(flow, start, [START]) == r
    requires EntrySteps(flow) == [first] && first != second && TargetsOf(flow, r.state, event) == [second, second]
    requires Activations.ActivatedAs(flow, start, moves, k, second)
    ensures Activations.Activated(Play(flow, start, moves).trail, second) == 2
  {
    hide EntrySteps, Play, Activations.Activated, Activations.OpenedAt;
    assert moves[..1] == [START];
    if k == 1 {
      TwiceListed(second);
    }
  }

  lemma TwiceListed(id: StepId)
    ensures Times([id, id], id) == 2
  {
    assert [id, id][..1] == [id] && [id][..0] == [];
  }

  const OPEN: Step := Step("open", PLAIN, false, 0, None, Some(Many(["assess", "assess"])), None, None, None, [])
  const ASSESS: Step := Step("assess", PLAIN, false, 0, None, Some(One(DONE)), None, None, None, ["open"])

  lemma DoubledFlow()
    ensures Doubled(FlowOf("double", [OPEN, ASSESS]), OPEN, ASSESS)
  {
    assert |OPEN.id| == 4 && |ASSESS.id| == 6 && OPEN.id[0] == 'o' && DONE[0] == 'd';
  }

  // ----- a join that collects failures --------------------------------------------------

  lemma FanOutJoin(flow: Flow, build: Step, left: Step, right: Step, gate: Step, report: Step)
    requires FanShape(flow, build, left, right, gate, report)
    ensures FailureJoins.FailureJoin(flow, report.id)
  {
    hide *;
    FanAccepted(flow, build, left, right, gate, report);
    FanMembers(flow, build, left, right, gate, report);
    FanGates(flow, build, left, right, gate, report);
    FanDistinct(flow, build, left, right, gate, report);
    StepOfUnique(flow, report);
    InOne(build.id);
    InThree(build.id, left.id, right.id);
    forall s ensures !Feeds(flow, s, report.id) { FanFeeds(flow, build, left, right, gate, report, s, report.id); }
    forall x | x in Sources(flow, report.id) ensures x in report.needs {
      FanSources(flow, build, left, right, gate, report, x);
    }
    JoinsFailures(flow, report);
  }

  lemma FanSources(flow: Flow, build: Step, left: Step, right: Step, gate: Step, report: Step, x: StepId)
    requires FanShape(flow, build, left, right, gate, report) && x in Sources(flow, report.id)
    ensures x == build.id || x == left.id || x == right.id
  {
    hide *;
    var s := SourceStep(flow, report.id, x);
    FanMember(flow, build, left, right, gate, report, s);
    FanRoutes(flow, build, left, right, gate, report);
    FanDistinct(flow, build, left, right, gate, report);
    InOne(DONE);
  }

  lemma SourceStep(flow: Flow, t: StepId, x: StepId) returns (s: Step)
    requires x in Sources(flow, t)
    ensures s in flow.steps && s.id == x && t in AllRoutes(s)
  {
    SourcesAreEdges(flow, t);
    hide Sources, AllRoutes;
    assert Edge(flow, x, t);
    s :| s in flow.steps && s.id == x && t in AllRoutes(s);
  }

  lemma JoinsFailures(flow: Flow, s: Step)
    requires flow.StepOf(s.id) == Some(s) && s.id != DONE && s.id !in EntrySteps(flow)
    requires forall x :: !Feeds(flow, x, s.id)
    requires forall x :: x in Sources(flow, s.id) ==> x in s.needs
    ensures FailureJoins.FailureJoin(flow, s.id)
  {
    hide EntrySteps, Sources, SuccessRoute;
    forall x | flow.Defined(x) ensures s.id !in SuccessRoute(flow.StepOf(x).value) {
      assert !Feeds(flow, x, s.id);
    }
  }

  /** A failure without retries left follows the failure route. */
  lemma FailureRoutes(flow: Flow, state: RunState, s: Step, reason: string)
    requires flow.StepOf(s.id) == Some(s) && HasStatus(state, s.id, StepStatus.Running)
    requires state.steps[s.id].attempt > s.retries
    requires forall t :: t in RouteTargets(s.onFailure) && t != DONE ==> flow.Defined(t) && Plain(flow.StepOf(t).value)
    ensures var event := Event.StepFailed(s.id, reason);
            && Enabled(state, event) && Transition(flow, state, event).Ok?
            && TargetsOf(flow, state, event) == RouteTargets(s.onFailure)
            && FailureJoins.Unhappy(flow, state, event)
  {
    var next := FailedState(state, s.id, reason);
    PlainRoutes(flow, next, BuildContext(flow, next), RouteTargets(s.onFailure));
    hide FailedState, BuildContext, ActivateTargets, ActiveExcluding, AllTerminal, Phase, Unreached, Plain,
         ResolveInput;
  }

  lemma NoneActivated(acts: seq<StepActivation>)
    ensures (forall t :: t !in ActIds(acts)) <==> acts == []
  {
    assert acts != [] ==> acts[0].stepId in ActIds(acts);
  }

  lemma NeedsSource(flow: Flow, state: RunState, event: Event, s: Step, t: StepId)
    requires event.StepFailed? && flow.StepOf(s.id) == Some(s) && event.stepId in s.needs
    ensures FailureJoins.Reaches(flow, state, event, t) ==> t in TargetsOf(flow, state, event) && t != s.id
  {
  }

  /** A run of the fan-out flow that fails in its first step ends there: the step that was
      meant to report the failure never starts. */
  lemma FailureUnreported(new_: NewRun, build: Step, left: Step, right: Step, gate: Step, report: Step, reason: string)
    requires FanShape(new_.definition, build, left, right, gate, report) && build.retries == 0
    ensures var flow, start, moves := new_.definition, NewPlay(new_),
            [START, Did(Event.StepFailed(build.id, reason), 0)];
            && Accepted(flow) && FailureJoins.FailureJoin(flow, report.id) && report.id in RouteTargets(build.onFailure)
            && Playable(flow, start, moves) && FailureJoins.Whole(flow, start, moves)
            && Play(flow, start, moves).phase == RunPhase.Failed && report.id !in Play(flow, start, moves).state.steps
  {
    hide *;
    var flow, start, m := new_.definition, NewPlay(new_), Did(Event.StepFailed(build.id, reason), 0);
    FanAccepted(flow, build, left, right, gate, report);
    FanOutJoin(flow, build, left, right, gate, report);
    FanMembers(flow, build, left, right, gate, report);
    FanGates(flow, build, left, right, gate, report);
    FanDistinct(flow, build, left, right, gate, report);
    FanPlain(flow, build, left, right, gate, report);
    StepOfUnique(flow, build);
    StepOfUnique(flow, report);
    CanStart(flow, build);
    Starts(new_, build.id);
    BegunRow(new_, build.id);
    var r := Begun(new_, build.id);
    FailsOver(build, report.id);
    FailureRoutes(flow, r.state, build, reason);
    var e := Transition(flow, r.state, m.event).value;
    InThree(build.id, left.id, right.id);
    InOne(report.id);
    forall t ensures t !in ActIds(e.activations) {
      FailureJoins.UnhappyActivates(flow, r.state, m.event, e, t);
      NeedsSource(flow, r.state, m.event, report, t);
    }
    NoneActivated(e.activations);
    AllWritten(r.state, build.id);
    FailureJoins.ReachingNothingEnds(flow, r.state, m.event, e);
    EndsBy(flow, start, r, m, e);
    FailureJoins.FailureJoinNeverRuns(new_, [START, m], report.id);
  }

  lemma FailsOver(build: Step, report: StepId)
    requires build.onFailure == Some(One(report))
    ensures RouteTargets(build.onFailure) == [report]
  {
  }

  lemma FanPlain(flow: Flow, build: Step, left: Step, right: Step, gate: Step, report: Step)
    requires FanShape(flow, build, left, right, gate, report)
    ensures Plain(build) && Plain(report) && build.onFailure == Some(One(report.id))
  {
    FanMembers(flow, build, left, right, gate, report);
  }

  lemma AllWritten(state: RunState, id: StepId)
    requires state.steps.Keys == {id} && HasStatus(state, id, StepStatus.Running)
    ensures forall x :: x in state.steps ==> Written(state.steps[x].status)
  {
  }

  /** A second move that starts nothing and ends the run. */
  lemma EndsBy(flow: Flow, start: Run, r: Run, m: Move, e: Effect)
    requires HappyPlay(flow, start, [START]) && Playable(flow, start, [START]) && Play(flow, start, [START]) == r
    requires m.Did? && m.j == 0 && r.phase == RunPhase.Running && Enabled(r.state, m.event)
    requires Transition(flow, r.state, m.event) == Ok(e) && e.activations == [] && e.finish == Some(RunPhase.Failed)
    ensures Playable(flow, start, [START, m]) && Play(flow, start, [START, m]).phase == RunPhase.Failed
    ensures FailureJoins.Whole(flow, start, [START, m])
  {
    PlaySnoc(flow, start, [START], m);
    assert [START] + [m] == [START, m] && [START, m][..0] == [] && [START, m][..1] == [START] && [START][..0] == [];
    assert FailureJoins.WholeMove(flow, start, START);
    hide Transition, Enabled, Overlay;
  }

  /** Such a flow, with its confluence and its unreported failure. */
  lemma FanOutFlow(inputs: Value, reason: string)
    ensures FanShape(FAN_OUT, BUILD, CHECKS, TESTS, GATE, REPORT) && FanIn(FAN_OUT)
    ensures var start, moves := NewPlay(NewRun(FAN_OUT, inputs, JNULL, None)),
            [START, Did(Event.StepFailed(BUILD.id, reason), 0)];
            && Accepted(FAN_OUT) && Playable(FAN_OUT, start, moves)
            && Play(FAN_OUT, start, moves).phase == RunPhase.Failed
            && REPORT.id !in Play(FAN_OUT, start, moves).state.steps
  {
    var new_ := NewRun(FAN_OUT, inputs, JNULL, None);
    FanOutShape();
    assert BUILD.retries == 0;
    hide *;
    FanOutFansIn(FAN_OUT, BUILD, CHECKS, TESTS, GATE, REPORT);
    FailureUnreported(new_, BUILD, CHECKS, TESTS, GATE, REPORT, reason);
  }

  // ----- approved twice -----------------------------------------------------------------

  /** A person decides on the first step, whose approval starts the second. */
  ghost predicate Reviewed(flow: Flow, ask: Step, work: Step) {
    && PairShape(flow, ask, work) && ask.humanLoop && !work.humanLoop && Plain(ask) && Plain(work)
    && ask.onApprove == Some(One(work.id)) && ask.onReject == Some(One(DONE))
    && ask.needs == [] && work.needs == [ask.id]
  }

  lemma ReviewedParts(flow: Flow, ask: Step, work: Step)
    requires Reviewed(flow, ask, work)
    ensures PairShape(flow, ask, work) && ask.humanLoop && Plain(ask) && Plain(work)
    ensures RouteTargets(ask.onApprove) == [work.id]
    ensures ask.needs == [] && work.needs == [ask.id]
  {
    hide PairShape;
  }

  function Reviewing(ask: StepId, output: Value): seq<Move> {
    [START, Did(Event.StepCompleted(ask, output), 0)]
  }

  /** A flow that starts with a human step: once its job has reported, the run waits for the
      person. */
  lemma EntryWaits(new_: NewRun, ask: Step, output: Value)
    requires EntrySteps(new_.definition) == [ask.id] && new_.definition.StepOf(ask.id) == Some(ask)
    requires Startable(new_.definition, ask.id) && Plain(ask) && ask.humanLoop
    ensures var flow, start, moves := new_.definition, NewPlay(new_), Reviewing(ask.id, output);
            && Playable(flow, start, moves)
            && var r := Play(flow, start, moves);
            r.phase == RunPhase.Running && r.state.steps.Keys == {ask.id} && HasStatus(r.state, ask.id, WaitingApproval)
            && r.state.steps[ask.id].output == Some(output) && NoVerdictYet(r.state.steps)
  {
    hide *;
    var flow, start, m := new_.definition, NewPlay(new_), Did(Event.StepCompleted(ask.id, output), 0);
    Starts(new_, ask.id);
    BegunRow(new_, ask.id);
    var r := Begun(new_, ask.id);
    HumanStep(flow, ask);
    SelfApproval.Completion(flow, ask.id, output, r);
    PlaySnoc(flow, start, [START], m);
    assert [START] + [m] == Reviewing(ask.id, output) by { TwoMoves(m, ask.id, output); }
    WaitsAlone(r.state, Moved(flow, r, m).state, ask.id, output);
    PlayInvariant(new_, Reviewing(ask.id, output));
    VerdictsOpen(flow, Moved(flow, r, m));
  }

  lemma ReviewStarts(new_: NewRun, ask: Step, work: Step, output: Value)
    requires Reviewed(new_.definition, ask, work)
    ensures var flow, start, moves := new_.definition, NewPlay(new_), Reviewing(ask.id, output);
            && Accepted(flow) && Playable(flow, start, moves)
            && var r := Play(flow, start, moves);
            r.phase == RunPhase.Running && r.state.steps.Keys == {ask.id} && HasStatus(r.state, ask.id, WaitingApproval)
            && NoVerdictYet(r.state.steps)
  {
    hide *;
    var flow := new_.definition;
    ReviewedParts(flow, ask, work);
    PairBasics(flow, ask, work);
    PairFacts(flow, ask, work);
    PairAccepted(flow, ask, work);
    CanStart(flow, ask);
    EntryWaits(new_, ask, output);
  }

  lemma TwoMoves(m: Move, ask: StepId, output: Value)
    requires m == Did(Event.StepCompleted(ask, output), 0)
    ensures [START] + [m] == Reviewing(ask, output)
  {
  }

  lemma HumanStep(flow: Flow, s: Step)
    requires flow.StepOf(s.id) == Some(s) && s.humanLoop
    ensures flow.Defined(s.id) && flow.StepOf(s.id).value.humanLoop
  {
  }

  lemma WaitsAlone(before: RunState, after: RunState, id: StepId, output: Value)
    requires before.steps.Keys == {id}
    requires after == before.(steps := before.steps[id := WaitingRun(before.steps[id], output)])
    ensures after.steps.Keys == {id} && HasStatus(after, id, WaitingApproval) && after.steps[id].output == Some(output)
  {
    assert after.steps.Keys == before.steps.Keys + {id};
  }

  lemma ApprovalAccepted(flow: Flow, state: RunState, s: Step, comment: Option<string>)
    requires flow.StepOf(s.id) == Some(s)
    requires forall t :: t in RouteTargets(s.onApprove) && t != DONE ==> flow.Defined(t) && Plain(flow.StepOf(t).value)
    ensures Transition(flow, state, Event.StepApproved(s.id, comment)).Ok?
  {
    var next := ApprovedState(state, s.id, comment);
    PlainRoutes(flow, next, BuildContext(flow, next), RouteTargets(s.onApprove));
    hide ApprovedState, BuildContext, ActivateTargets, AllTerminal, Phase, Unreached, Plain;
  }

  lemma ApprovalOpens(state: RunState, id: StepId, comment: Option<string>)
    requires state.steps.Keys == {id}
    ensures var next := ApprovedState(state, id, comment);
            next.steps.Keys == {id} && next.steps[id].status == StepStatus.Completed
  {
    assert ApprovedState(state, id, comment).steps.Keys == state.steps.Keys + {id};
  }

  lemma GateAfter(flow: Flow, next: RunState, s: Step, need: StepId)
    requires flow.StepOf(s.id) == Some(s) && s.needs == [need] && flow.Defined(need) && need in next.steps
    requires next.steps[need].status == StepStatus.Completed
    ensures flow.Defined(s.id) && NeedsSatisfied(flow, next, flow.StepOf(s.id).value)
  {
  }

  /** The first approval starts exactly the second step. */
  lemma FirstApproval(flow: Flow, r: Run, ask: Step, work: Step, comment: Option<string>) returns (e: Effect)
    requires Reviewed(flow, ask, work) && r.state.steps.Keys == {ask.id} && HasStatus(r.state, ask.id, WaitingApproval)
    requires NoVerdictYet(r.state.steps) && r.phase == RunPhase.Running
    ensures Enabled(r.state, Event.StepApproved(ask.id, comment))
    ensures Transition(flow, r.state, Event.StepApproved(ask.id, comment)) == Ok(e)
    ensures e.finish.None? && ActIds(e.activations) == {work.id}
    ensures var r1 := After(r, e, |e.activations|);
            && CanMove(flow, r, Did(Event.StepApproved(ask.id, comment), |e.activations|))
            && work.id in r1.state.steps && r1.state.steps[work.id].attempt == 1
  {
    hide *;
    var event, next := Event.StepApproved(ask.id, comment), ApprovedState(r.state, ask.id, comment);
    ReviewedParts(flow, ask, work);
    PairBasics(flow, ask, work);
    PairFacts(flow, ask, work);
    InOne(work.id);
    InOne(ask.id);
    WaitingEnabled(r.state, ask.id, comment);
    ApprovalAccepted(flow, r.state, ask, comment);
    e := Transition(flow, r.state, event).value;
    EffectShape(flow, r.state, event, e);
    Legality.ApprovalFollows(flow, r.state, ask.id, comment, e);
    ApprovalOpens(r.state, ask.id, comment);
    GateAfter(flow, next, work, ask.id);
    Legality.Overlaid(flow, next, [work.id], e.activations);
    assert ActIds(e.activations) == {work.id};
    SomeActs(e.activations, work.id);
    NotEnding(flow, event, e);
    AcceptedMove(flow, r, event, e);
    Legality.WholeAfter(r, e);
  }

  lemma WaitingEnabled(state: RunState, id: StepId, comment: Option<string>)
    requires HasStatus(state, id, WaitingApproval)
    ensures Enabled(state, Event.StepApproved(id, comment))
  {
  }

  lemma SomeActs(acts: seq<StepActivation>, id: StepId)
    requires id in ActIds(acts)
    ensures acts != []
  {
  }

  lemma NotEnding(flow: Flow, event: Event, e: Effect)
    requires Ends(flow, event, e) && e.activations != []
    ensures e.finish.None?
  {
  }

  lemma AcceptedMove(flow: Flow, r: Run, event: Event, e: Effect)
    requires r.phase == RunPhase.Running && Enabled(r.state, event) && Transition(flow, r.state, event) == Ok(e)
    ensures CanMove(flow, r, Did(event, |e.activations|))
  {
    hide Transition, Enabled;
  }

  /** A reachable state of an accepted flow in which two approvals that were both checked
      before either was submitted start a second attempt beside the one that is running. */
  lemma ApprovedAgain(new_: NewRun, ask: Step, work: Step, output: Value, first: Option<string>, second: Option<string>)
    returns (e: Effect, again: Effect)
    requires Reviewed(new_.definition, ask, work)
    ensures var flow, start, moves := new_.definition, NewPlay(new_), Reviewing(ask.id, output);
            var r := Play(flow, start, moves);
            && Accepted(flow) && Playable(flow, start, moves)
            && Enabled(r.state, Event.StepApproved(ask.id, first))
            && Enabled(r.state, Event.StepApproved(ask.id, second))
            && Transition(flow, r.state, Event.StepApproved(ask.id, first)) == Ok(e)
            && CanMove(flow, r, Did(Event.StepApproved(ask.id, first), |e.activations|))
            && var r1 := After(r, e, |e.activations|);
            && !Enabled(r1.state, Event.StepApproved(ask.id, second))
            && Transition(flow, r1.state, Event.StepApproved(ask.id, second)) == Ok(again)
            && work.id in r1.state.steps && r1.state.steps[work.id].status.Running?
            && r1.state.steps[work.id].attempt == 1
            && var steps := After(r1, again, |again.activations|).state.steps;
            work.id in steps && steps[work.id].attempt == 2
  {
    hide *;
    var flow, start, moves := new_.definition, NewPlay(new_), Reviewing(ask.id, output);
    var r := Play(flow, start, moves);
    ReviewStarts(new_, ask, work, output);
    e := FirstApproval(flow, r, ask, work, first);
    ReviewedParts(flow, ask, work);
    PairBasics(flow, ask, work);
    PairFacts(flow, ask, work);
    InOne(work.id);
    InOne(ask.id);
    WaitingEnabled(r.state, ask.id, second);
    var r1 := After(r, e, |e.activations|);
    ApprovalAccepted(flow, r1.state, ask, second);
    again := Transition(flow, r1.state, Event.StepApproved(ask.id, second)).value;
    Legality.ApprovedTwice(flow, r, ask.id, first, second, e, again, work.id);
  }

  const REVIEW: Step := Step("review", PLAIN, true, 0, None, None, None, Some(One("publish")), Some(One(DONE)), [])
  const PUBLISH: Step := Step("publish", PLAIN, false, 0, None, Some(One(DONE)), None, None, None, ["review"])

  lemma ReviewedFlow()
    ensures Reviewed(FlowOf("reviewed", [REVIEW, PUBLISH]), REVIEW, PUBLISH)
  {
    ReviewedIds();
    hide ValidId, Reviewed;
    ReviewedMade(FlowOf("reviewed", [REVIEW, PUBLISH]), REVIEW, PUBLISH);
  }

  lemma ReviewedIds()
    ensures REVIEW.id != PUBLISH.id && REVIEW.id != DONE && PUBLISH.id != DONE
    ensures ValidId(REVIEW.id) && ValidId(PUBLISH.id)
  {
    assert |REVIEW.id| == 6 && |PUBLISH.id| == 7 && |DONE| == 4;
  }

  lemma ReviewedMade(flow: Flow, ask: Step, work: Step)
    requires flow.steps == [ask, work] && ask.id != work.id && ask.id != DONE && work.id != DONE
    requires ValidId(ask.id) && ValidId(work.id) && ask.rejectInput.None? && work.rejectInput.None?
    requires ask.humanLoop && Unattended(work) && Plain(ask) && Plain(work)
    requires ask.onApprove == Some(One(work.id)) && ask.onReject == Some(One(DONE))
    requires ask.onSuccess.None? && ask.onFailure.None? && ask.needs == []
    requires work.onSuccess == Some(One(DONE)) && work.onFailure.None? && work.needs == [ask.id]
    ensures Reviewed(flow, ask, work)
  {
    OneRoute(work);
    ReviewRoutes(ask, work.id);
    NotAmong(DONE, ask.id);
    InTwo(work.id, DONE);
    InOne(DONE);
    assert StepRefs("") == [];
    hide ValidId, StepRefs, AllRoutes, ForwardRoutes, Times;
  }

  lemma ReviewRoutes(ask: Step, work: StepId)
    requires ask.onApprove == Some(One(work)) && ask.onReject == Some(One(DONE))
    requires ask.onSuccess.None? && ask.onFailure.None?
    ensures AllRoutes(ask) == [work, DONE] && ForwardRoutes(ask) == [work, DONE]
  {
    assert [] + [] + [work] + [DONE] == [work, DONE];
  }

  // ----- a step that sends its failures back to the entry -------------------------------

  /** The entry hands over to a check, which needs it and sends failures back to it. */
  ghost predicate Retesting(flow: Flow, work: Step, check: Step) {
    && PairShape(flow, work, check) && Unattended(work) && Unattended(check) && Plain(work) && Plain(check)
    && work.onSuccess == Some(One(check.id)) && work.onFailure == Some(One(DONE))
    && check.onSuccess == Some(One(DONE)) && check.onFailure == Some(One(work.id)) && check.needs == [work.id]
  }

  lemma RetestingParts(flow: Flow, work: Step, check: Step)
    requires Retesting(flow, work, check)
    ensures PairShape(flow, work, check) && Plain(work) && Plain(check)
    ensures AllRoutes(work) == [check.id, DONE] && AllRoutes(check) == [DONE, work.id]
  {
    UnattendedRoutes(work);
    UnattendedRoutes(check);
    hide PairShape, AllRoutes, ForwardRoutes;
  }

  lemma TimesOfTwo(a: StepId, b: StepId, id: StepId)
    ensures Times([a, b], id) == (if a == id then 1 else 0) + (if b == id then 1 else 0)
  {
    assert [a, b][..1] == [a] && [a][..0] == [];
  }

  lemma SoleSource(flow: Flow, t: StepId, source: StepId)
    requires |Sources(flow, t)| == 1 && forall x :: x in Sources(flow, t) ==> x == source
    ensures Direct(flow, t) == {source}
  {
    hide Sources;
    assert Sources(flow, t)[0] in Sources(flow, t);
  }

  lemma CheckPrecedes(flow: Flow, work: Step, check: Step)
    requires Retesting(flow, work, check)
    ensures Direct(flow, work.id) == {check.id}
  {
    hide *;
    RetestingParts(flow, work, check);
    PairBasics(flow, work, check);
    PairFacts(flow, work, check);
    PairSources(flow, work, check, work.id);
    TimesOfTwo(check.id, DONE, work.id);
    TimesOfTwo(DONE, work.id, work.id);
    InTwo(check.id, DONE);
    forall x | x in Sources(flow, work.id) ensures x == check.id {
      var s := SourceStep(flow, work.id, x);
    }
    SoleSource(flow, work.id, check.id);
  }

  /** An accepted flow that does not start clean: in its first state the entry has a row while
      the step the validator counts as guaranteed before it has none. */
  lemma StartsUnclean(new_: NewRun, work: Step, check: Step)
    requires Retesting(new_.definition, work, check) && work.needs == []
    ensures Accepted(new_.definition) && !StartsClean(new_.definition)
    ensures Playable(new_.definition, NewPlay(new_), [START])
    ensures !PredecessorsPresent(new_.definition, Play(new_.definition, NewPlay(new_), [START]).state.steps)
  {
    hide *;
    var flow := new_.definition;
    RetestingParts(flow, work, check);
    PairBasics(flow, work, check);
    PairFacts(flow, work, check);
    PairAccepted(flow, work, check);
    CheckPrecedes(flow, work, check);
    CanStart(flow, work);
    Starts(new_, work.id);
    BegunRow(new_, work.id);
    Unclean(flow, work.id, check.id, Begun(new_, work.id).state.steps);
  }

  lemma Unclean(flow: Flow, entry: StepId, p: StepId, steps: Steps)
    requires EntrySteps(flow) == [entry] && Startable(flow, entry) && Direct(flow, entry) == {p} && p != entry
    requires steps.Keys == {entry}
    ensures !StartsClean(flow) && !PredecessorsPresent(flow, steps)
  {
    hide EntrySteps, Direct, Startable;
    assert entry in EntrySteps(flow) && p in Direct(flow, entry);
  }

  const IMPLEMENT: Step := Step("implement", PLAIN, false, 2, None, Some(One("test")), Some(One(DONE)), None, None, [])
  const TEST: Step :=
    Step("test", PLAIN, false, 0, None, Some(One(DONE)), Some(One("implement")), None, None, ["implement"])

  /** The routing of the failure-routing flow of the fixtures. */
  lemma FailureRoutingFlow()
    ensures Retesting(FlowOf("failure-routing", [IMPLEMENT, TEST]), IMPLEMENT, TEST) && IMPLEMENT.needs == []
  {
    assert |IMPLEMENT.id| == 9 && |TEST.id| == 4 && DONE[0] == 'd' && TEST.id[0] == 't';
    RetestingMade(FlowOf("failure-routing", [IMPLEMENT, TEST]), IMPLEMENT, TEST);
  }

  lemma RetestingMade(flow: Flow, work: Step, check: Step)
    requires flow.steps == [work, check] && work.id != check.id && work.id != DONE && check.id != DONE
    requires ValidId(work.id) && ValidId(check.id) && work.rejectInput.None? && check.rejectInput.None?
    requires Unattended(work) && Unattended(check) && Plain(work) && Plain(check)
    requires work.onSuccess == Some(One(check.id)) && work.onFailure == Some(One(DONE))
    requires (work.needs == [] || work.needs == [check.id])
    requires check.onSuccess == Some(One(DONE)) && check.onFailure == Some(One(work.id)) && check.needs == [work.id]
    ensures Retesting(flow, work, check)
  {
    UnattendedRoutes(work);
    UnattendedRoutes(check);
    TimesOfTwo(DONE, work.id, work.id);
    InTwo(check.id, DONE);
    InTwo(DONE, work.id);
    assert StepRefs("") == [];
    hide ValidId, StepRefs, AllRoutes, ForwardRoutes, Times;
  }

  /** An accepted flow whose entry waits for a step that only runs after it: no run of it ever
      has a row. */
  lemma WaitsForItsOwnCheck(new_: NewRun, work: Step, check: Step, moves: seq<Move>)
    requires Retesting(new_.definition, work, check) && work.needs == [check.id]
    ensures Accepted(new_.definition)
    ensures Playable(new_.definition, NewPlay(new_), moves) ==>
              Play(new_.definition, NewPlay(new_), moves).state.steps == map[]
  {
    hide *;
    var flow, start := new_.definition, NewPlay(new_);
    RetestingParts(flow, work, check);
    PairBasics(flow, work, check);
    PairAccepted(flow, work, check);
    NoRows(new_);
    Entries.AcceptedStarts(flow, start.state);
    assert EntrySteps(flow)[0] == work.id;
    Entries.BeginsOrNeverRuns(new_);
  }

  lemma NoRows(new_: NewRun)
    ensures NewPlay(new_).state.steps == map[]
  {
  }

  const GATED: Step := IMPLEMENT.(needs := ["test"])

  lemma GatedFlow()
    ensures Retesting(FlowOf("gated", [GATED, TEST]), GATED, TEST) && GATED.needs == [TEST.id]
  {
    assert |GATED.id| == 9 && |TEST.id| == 4 && DONE[0] == 'd' && TEST.id[0] == 't';
    RetestingMade(FlowOf("gated", [GATED, TEST]), GATED, TEST);
  }

  // ----- a failure that starts the loop again -------------------------------------------

  /** A row that runs, on the given attempt. */
  function RunningRow(id: StepId, attempt: nat): StepRun {
    ActivatedRun(StepActivation(id, attempt, ""))
  }

  /** The rows after a round: the first step runs again, the second has failed. */
  function Retested(work: StepId, check: StepId, i: nat, k: nat, reason: string): Steps {
    map[work := RunningRow(work, i),
        check := RunningRow(check, k).(status := StepStatus.Failed, failureReason := Some(reason))]
  }

  function Round(work: StepId, check: StepId, output: Value, reason: string): seq<Move> {
    [Did(Event.StepCompleted(work, output), 1), Did(Event.StepFailed(check, reason), 1)]
  }

  /** A target with an open gate and a plain input is activated. */
  lemma SoleTarget(flow: Flow, state: RunState, s: Step)
    requires flow.StepOf(s.id) == Some(s) && Plain(s) && s.id != DONE && NeedsSatisfied(flow, state, s)
    ensures ActivateTargets(flow, state, BuildContext(flow, state), [s.id])
            == Ok([StepActivation(s.id, NextAttempt(state, s.id), "")])
  {
    PlainResolves(s, BuildContext(flow, state));
    OneTarget(flow, state, BuildContext(flow, state), s.id);
    hide NeedsSatisfied, BuildContext, ResolveInput, ActivateTargets;
  }

  /** The first half of a round: the first step completes and the second starts. */
  lemma WorkCompletes(flow: Flow, r: Run, work: Step, check: Step, output: Value)
    requires flow.StepOf(work.id) == Some(work) && flow.StepOf(check.id) == Some(check) && work.id != check.id
    requires check.id != DONE && Plain(check) && check.needs == [work.id] && !work.humanLoop
    requires RouteTargets(work.onSuccess) == [check.id]
    requires r.phase == RunPhase.Running && HasStatus(r.state, work.id, StepStatus.Running)
    ensures var m := Did(Event.StepCompleted(work.id, output), 1);
            var row := r.state.steps[work.id].(status := StepStatus.Completed, output := Some(output));
            && CanMove(flow, r, m) && Moved(flow, r, m).phase == RunPhase.Running
            && Moved(flow, r, m).state ==
               r.state.(steps := r.state.steps[work.id := row][check.id := RunningRow(check.id,
                   NextAttempt(r.state, check.id))])
  {
    hide *;
    var next := Upsert(r.state, work.id, StepStatus.Completed, Some(output));
    CompletedRows(r.state, work.id, check.id, output);
    RunningIs(check.id, NextAttempt(next, check.id));
    GateAfter(flow, next, check, work.id);
    SoleTarget(flow, next, check);
    OneOverlaid(next.steps, [StepActivation(check.id, NextAttempt(next, check.id), "")]);
    CompletesWith(flow, r, work, check.id, output);
  }

  lemma CompletedRows(state: RunState, work: StepId, check: StepId, output: Value)
    requires work != check && HasStatus(state, work, StepStatus.Running)
    ensures var row := state.steps[work].(status := StepStatus.Completed, output := Some(output));
            var next := Upsert(state, work, StepStatus.Completed, Some(output));
            && next == state.(steps := state.steps[work := row])
            && NextAttempt(next, check) == NextAttempt(state, check)
            && next.steps[work].status == StepStatus.Completed
    ensures work in state.steps
  {
  }

  /** A completion whose route leads to one activation. */
  lemma CompletesWith(flow: Flow, r: Run, s: Step, target: StepId, output: Value)
    requires flow.StepOf(s.id) == Some(s) && r.phase == RunPhase.Running && HasStatus(r.state, s.id, StepStatus.Running)
    requires !s.humanLoop && RouteTargets(s.onSuccess) == [target]
    requires var next := Upsert(r.state, s.id, StepStatus.Completed, Some(output));
             var act := StepActivation(target, NextAttempt(next, target), "");
             && ActivateTargets(flow, next, BuildContext(flow, next), [target]) == Ok([act])
             && [act][..1] == [act]
    ensures var m := Did(Event.StepCompleted(s.id, output), 1);
            var next := Upsert(r.state, s.id, StepStatus.Completed, Some(output));
            var act := StepActivation(target, NextAttempt(next, target), "");
            && CanMove(flow, r, m) && Moved(flow, r, m).phase == RunPhase.Running
            && Moved(flow, r, m).state == next.(steps := Overlay(next.steps, [act]))
  {
    hide BuildContext, ActivateTargets, Overlay, AllTerminal, Phase, Unreached, MarkNotes, ActNotes, NextAttempt;
  }

  lemma NoNeeds(flow: Flow, state: RunState, s: Step)
    requires s.needs == []
    ensures NeedsSatisfied(flow, state, s)
  {
  }

  /** The second half: the second step fails and the first starts again. */
  lemma CheckFails(flow: Flow, r: Run, work: Step, check: Step, reason: string)
    requires flow.StepOf(work.id) == Some(work) && flow.StepOf(check.id) == Some(check) && work.id != check.id
    requires work.id != DONE && Plain(work) && work.needs == [] && RouteTargets(check.onFailure) == [work.id]
    requires r.phase == RunPhase.Running && r.state.steps.Keys == {work.id, check.id}
    requires HasStatus(r.state, work.id, StepStatus.Completed) && HasStatus(r.state, check.id, StepStatus.Running)
    requires r.state.steps[check.id].attempt > check.retries
    ensures var m := Did(Event.StepFailed(check.id, reason), 1);
            var row := r.state.steps[check.id].(status := StepStatus.Failed, failureReason := Some(reason));
            && CanMove(flow, r, m) && !Laps.Retry(flow, r.state, m.event) && Moved(flow, r, m).phase == RunPhase.Running
            && Moved(flow, r, m).state ==
               r.state.(steps := r.state.steps[check.id := row][work.id := RunningRow(work.id,
                   r.state.steps[work.id].attempt + 1)])
  {
    hide *;
    var next := FailedState(r.state, check.id, reason);
    FailedRows(r.state, work.id, check.id, reason);
    NextOf(next, work.id, r.state.steps[work.id].attempt);
    RunningIs(work.id, r.state.steps[work.id].attempt + 1);
    NoNeeds(flow, next, work);
    SoleTarget(flow, next, work);
    OneOverlaid(next.steps, [StepActivation(work.id, NextAttempt(next, work.id), "")]);
    FailsWith(flow, r, check, work.id, reason);
  }

  lemma RunningIs(id: StepId, attempt: nat)
    ensures RunningRow(id, attempt) == ActivatedRun(StepActivation(id, attempt, ""))
  {
  }

  lemma FailedRows(state: RunState, work: StepId, check: StepId, reason: string)
    requires work != check && state.steps.Keys == {work, check}
    requires HasStatus(state, work, StepStatus.Completed) && HasStatus(state, check, StepStatus.Running)
    ensures var row := state.steps[check].(status := StepStatus.Failed, failureReason := Some(reason));
            FailedState(state, check, reason) == state.(steps := state.steps[check := row])
  {
    var row := state.steps[check].(status := StepStatus.Failed, failureReason := Some(reason));
    assert FailedState(state, check, reason).steps == state.steps[check := row];
  }

  /** A failure whose route leads to one activation. */
  lemma FailsWith(flow: Flow, r: Run, s: Step, target: StepId, reason: string)
    requires flow.StepOf(s.id) == Some(s) && r.phase == RunPhase.Running && HasStatus(r.state, s.id, StepStatus.Running)
    requires r.state.steps[s.id].attempt > s.retries && RouteTargets(s.onFailure) == [target]
    requires var next := FailedState(r.state, s.id, reason);
             var act := StepActivation(target, NextAttempt(next, target), "");
             && ActivateTargets(flow, next, BuildContext(flow, next), [target]) == Ok([act])
             && [act][..1] == [act]
    ensures var m := Did(Event.StepFailed(s.id, reason), 1);
            var next := FailedState(r.state, s.id, reason);
            var act := StepActivation(target, NextAttempt(next, target), "");
            && CanMove(flow, r, m) && !Laps.Retry(flow, r.state, m.event) && Moved(flow, r, m).phase == RunPhase.Running
            && Moved(flow, r, m).state == next.(steps := Overlay(next.steps, [act]))
  {
    hide FailedState, BuildContext, ActivateTargets, Overlay, AllTerminal, Phase, Unreached, MarkNotes, ActNotes,
         ActiveExcluding, ResolveInput, NextAttempt;
    FailedKeeps(r.state, s.id, reason);
  }

  lemma FailedKeeps(state: RunState, id: StepId, reason: string)
    ensures var next := FailedState(state, id, reason);
            next.cancelled == state.cancelled && next.inputs == state.inputs && next.trigger == state.trigger
  {
  }

  /** One round, from a run whose first step runs. */
  lemma Retest(flow: Flow, r: Run, work: Step, check: Step, i: nat, output: Value, reason: string)
    requires Retesting(flow, work, check) && work.needs == [] && check.retries == 0 && r.phase == RunPhase.Running
    requires work.id in r.state.steps && r.state.steps[work.id] == RunningRow(work.id, i)
    requires r.state.steps.Keys <= {work.id, check.id}
    ensures var round := Round(work.id, check.id, output, reason);
            && Playable(flow, r, round) && Laps.NoRetries(flow, r, round)
            && Play(flow, r, round).phase == RunPhase.Running
            && Play(flow, r, round).state ==
               r.state.(steps := Retested(work.id, check.id, i + 1, NextAttempt(r.state, check.id), reason))
  {
    hide *;
    var m1, m2 := Did(Event.StepCompleted(work.id, output), 1), Did(Event.StepFailed(check.id, reason), 1);
    RetestingParts(flow, work, check);
    RetestingRoutes(flow, work, check);
    PairBasics(flow, work, check);
    PairFacts(flow, work, check);
    RowRuns(r.state, work.id, i);
    WorkCompletes(flow, r, work, check, output);
    var r1 := Moved(flow, r, m1);
    BetweenHalves(r.state, r1.state, work.id, check.id, i, output);
    CheckFails(flow, r1, work, check, reason);
    RoundRows(r.state, r1.state, work.id, check.id, i, output, reason);
    TwoPlayed(flow, r, m1, m2);
    assert Round(work.id, check.id, output, reason) == [m1, m2] by { RoundIs(work.id, check.id, output, reason); }
  }

  lemma RoundIs(work: StepId, check: StepId, output: Value, reason: string)
    ensures Round(work, check, output, reason)
            == [Did(Event.StepCompleted(work, output), 1), Did(Event.StepFailed(check, reason), 1)]
  {
  }

  lemma RowRuns(state: RunState, id: StepId, i: nat)
    requires id in state.steps && state.steps[id] == RunningRow(id, i)
    ensures HasStatus(state, id, StepStatus.Running)
  {
  }

  lemma RetestingRoutes(flow: Flow, work: Step, check: Step)
    requires Retesting(flow, work, check)
    ensures !work.humanLoop && RouteTargets(work.onSuccess) == [check.id] && RouteTargets(check.onFailure) == [work.id]
    ensures check.needs == [work.id]
  {
    hide PairShape;
  }

  lemma BetweenHalves(a: RunState, b: RunState, work: StepId, check: StepId, i: nat, output: Value)
    requires work != check && work in a.steps && a.steps[work] == RunningRow(work, i) && a.steps.Keys <= {work, check}
    requires var row := a.steps[work].(status := StepStatus.Completed, output := Some(output));
             b == a.(steps := a.steps[work := row][check := RunningRow(check, NextAttempt(a, check))])
    ensures b.steps.Keys == {work, check} && HasStatus(b, work, StepStatus.Completed)
    ensures HasStatus(b, check, StepStatus.Running) && b.steps[check].attempt == NextAttempt(a, check) > 0
    ensures b.steps[work].attempt == i
  {
  }

  lemma RoundRows(a: RunState, b: RunState, work: StepId, check: StepId, i: nat, output: Value, reason: string)
    requires work != check && work in a.steps && a.steps[work] == RunningRow(work, i) && a.steps.Keys <= {work, check}
    requires var row := a.steps[work].(status := StepStatus.Completed, output := Some(output));
             b == a.(steps := a.steps[work := row][check := RunningRow(check, NextAttempt(a, check))])
    ensures var row := b.steps[check].(status := StepStatus.Failed, failureReason := Some(reason));
            b.(steps := b.steps[check := row][work := RunningRow(work, i + 1)])
            == a.(steps := Retested(work, check, i + 1, NextAttempt(a, check), reason))
  {
    var row := b.steps[check].(status := StepStatus.Failed, failureReason := Some(reason));
    assert b.steps[check := row][work := RunningRow(work, i + 1)]
        == Retested(work, check, i + 1, NextAttempt(a, check), reason);
  }

  lemma TwoPlayed(flow: Flow, r: Run, m1: Move, m2: Move)
    requires CanMove(flow, r, m1) && CanMove(flow, Moved(flow, r, m1), m2) && m1.Did? && m1.event.StepCompleted?
    requires m2.Did? && !Laps.Retry(flow, Moved(flow, r, m1).state, m2.event)
    ensures Playable(flow, r, [m1, m2]) && Laps.NoRetries(flow, r, [m1, m2])
    ensures Play(flow, r, [m1, m2]) == Moved(flow, Moved(flow, r, m1), m2)
  {
    hide *;
    OnePlayed(flow, r, m1);
    OnePlayed(flow, Moved(flow, r, m1), m2);
    Laps.PlayConcat(flow, r, [m1], [m2]);
    assert [m1] + [m2] == [m1, m2];
    NoneRetried(flow, r, m1, m2);
  }

  lemma OnePlayed(flow: Flow, r: Run, m: Move)
    ensures Play(flow, r, [m]) == Moved(flow, r, m) && (Playable(flow, r, [m]) <==> CanMove(flow, r, m))
  {
    hide CanMove, Moved;
    assert [m][..0] == [];
  }

  lemma NoneRetried(flow: Flow, r: Run, m1: Move, m2: Move)
    requires m1.Did? && m1.event.StepCompleted? && Play(flow, r, [m1]) == Moved(flow, r, m1)
    requires m2.Did? && !Laps.Retry(flow, Moved(flow, r, m1).state, m2.event)
    ensures Laps.NoRetries(flow, r, [m1, m2])
  {
    hide CanMove, Moved, Play;
    assert !Laps.Retry(flow, Play(flow, r, []).state, m1.event);
    hide Laps.Retry;
    assert [m1, m2][..1] == [m1] && [m1][..0] == [];
    assert Laps.NoRetries(flow, r, [m1]);
  }

  /** A round leads from such a run to one alike, so that it is a lap. */
  lemma RoundIsLap(flow: Flow, r: Run, work: Step, check: Step, i: nat, k: nat, output: Value, reason: string)
    requires Retesting(flow, work, check) && work.needs == [] && check.retries == 0 && r.phase == RunPhase.Running
    requires r.state.steps == Retested(work.id, check.id, i, k, reason)
    ensures Laps.IsLap(flow, r, Round(work.id, check.id, output, reason))
  {
    hide *;
    PairFacts(flow, work, check) by { RetestingParts(flow, work, check); }
    RetestedRows(work.id, check.id, i, k, reason);
    Retest(flow, r, work, check, i, output, reason);
    NextOf(r.state, check.id, k);
    LaterAlike(r, Play(flow, r, Round(work.id, check.id, output, reason)), work.id, check.id, i, k, reason);
    LapIs(flow, r, Round(work.id, check.id, output, reason));
  }

  lemma RetestedRows(work: StepId, check: StepId, i: nat, k: nat, reason: string)
    requires work != check
    ensures var steps := Retested(work, check, i, k, reason);
            && steps.Keys == {work, check} && steps[work] == RunningRow(work, i) && steps[check].attempt == k
  {
  }

  lemma NextOf(state: RunState, id: StepId, k: nat)
    requires id in state.steps && state.steps[id].attempt == k
    ensures NextAttempt(state, id) == k + 1
  {
  }

  lemma LaterAlike(r: Run, s: Run, work: StepId, check: StepId, i: nat, k: nat, reason: string)
    requires r.phase == s.phase && r.state.steps == Retested(work, check, i, k, reason)
    requires s.state == r.state.(steps := Retested(work, check, i + 1, k + 1, reason))
    ensures Laps.AlikeRuns(r, s)
  {
    var a, b := r.state.steps, s.state.steps;
    forall id ensures Laps.AlikeAt(a, b, id) {}
  }

  lemma LapIs(flow: Flow, r: Run, lap: seq<Move>)
    requires Playable(flow, r, lap) && Laps.NoRetries(flow, r, lap) && Laps.AlikeRuns(r, Play(flow, r, lap))
    ensures Laps.IsLap(flow, r, lap)
  {
    hide Playable, Play, Laps.NoRetries, Laps.AlikeRuns;
  }

  /** An accepted flow routed like the failure-routing flow of the fixtures has, for every `n`, a
      run of `n` rounds in which the check fails and the work starts again, and that is still
      Running: acceptance does not bound the runs of a failure route that leads back. */
  lemma RetestsForever(new_: NewRun, work: Step, check: Step, output: Value, reason: string, n: nat)
    requires Retesting(new_.definition, work, check) && work.needs == [] && check.retries == 0
    ensures var round := Round(work.id, check.id, output, reason);
            var moves := [START] + round + Laps.Repeated(round, n);
            && Accepted(new_.definition) && Playable(new_.definition, NewPlay(new_), moves)
            && Play(new_.definition, NewPlay(new_), moves).phase == RunPhase.Running
  {
    hide *;
    var flow, start, round := new_.definition, NewPlay(new_), Round(work.id, check.id, output, reason);
    RetestingParts(flow, work, check);
    PairBasics(flow, work, check);
    PairFacts(flow, work, check);
    PairAccepted(flow, work, check);
    CanStart(flow, work);
    Starts(new_, work.id);
    BegunRow(new_, work.id);
    BegunIs(new_, work.id);
    var r := Begun(new_, work.id);
    Retest(flow, r, work, check, 1, output, reason);
    Laps.PlayConcat(flow, start, [START], round);
    var k := NextAttempt(r.state, check.id);
    RoundIsLap(flow, Play(flow, r, round), work, check, 2, k, output, reason);
    Laps.LapsForever(flow, start, [START] + round, round, n);
    StillRunning(Play(flow, r, round), Play(flow, start, [START] + round + Laps.Repeated(round, n)));
  }

  lemma BegunIs(new_: NewRun, first: StepId)
    ensures first in Begun(new_, first).state.steps && Begun(new_, first).state.steps[first] == RunningRow(first, 1)
  {
  }

  lemma StillRunning(r: Run, s: Run)
    requires Laps.AlikeRuns(r, s)
    ensures s.phase == r.phase
  {
    hide Laps.Alike;
  }

  // ----- an input that quotes a failed step ---------------------------------------------

  /** The failure of the first step leads to the second, whose input quotes its output. */
  ghost predicate Blaming(flow: Flow, first: Step, second: Step) {
    && PairShape(flow, first, second) && Unattended(first) && Unattended(second) && Plain(first)
    && first.onSuccess == Some(One(DONE)) && first.onFailure == Some(One(second.id)) && first.retries == 0
    && second.onSuccess == Some(One(DONE)) && second.onFailure.None?
    && Arguments.Quotes(second.with.input, first.id) && first.needs == [] && second.needs == []
  }

  lemma BlamingParts(flow: Flow, first: Step, second: Step)
    requires Blaming(flow, first, second)
    ensures PairShape(flow, first, second) && Plain(first) && Arguments.Quotes(second.with.input, first.id)
    ensures AllRoutes(first) == [DONE, second.id] && AllRoutes(second) == [DONE]
    ensures RouteTargets(first.onFailure) == [second.id]
    ensures first.needs == [] && second.needs == [] && first.retries == 0
  {
    UnattendedRoutes(first);
    OneRoute(second);
    hide PairShape, AllRoutes, ForwardRoutes, Arguments.Quotes;
  }

  lemma NoSources(flow: Flow, s: Step)
    requires flow.StepOf(s.id) == Some(s) && s.needs == [] && |Sources(flow, s.id)| == 0
    ensures Direct(flow, s.id) == {}
  {
    hide Sources;
  }

  lemma CleanEntry(flow: Flow, id: StepId)
    requires EntrySteps(flow) == [id] && Direct(flow, id) == {}
    ensures StartsClean(flow)
  {
    hide EntrySteps, Direct;
  }

  lemma QuoteRefused(flow: Flow, state: RunState, first: StepId, second: Step)
    requires flow.StepOf(second.id) == Some(second) && second.needs == [] && second.id != DONE
    requires Arguments.Quotes(second.with.input, first) && flow.Defined(first)
    requires first in state.steps ==> state.steps[first].output.None?
    ensures Refuses(flow, state, BuildContext(flow, state), second.id)
  {
    var ctx := BuildContext(flow, state);
    Arguments.QuotedOutput(second.with.input, first, ctx);
    ShownOutput(flow, state, first);
    hide BuildContext, Resolve, Arguments.Quotes;
  }

  lemma ShownOutput(flow: Flow, state: RunState, id: StepId)
    requires flow.Defined(id) && (id in state.steps ==> state.steps[id].output.None?)
    ensures var ctx := BuildContext(flow, state); id in ctx.steps ==> ctx.steps[id].output.None?
  {
  }

  lemma FailureHasNoOutput(state: RunState, id: StepId, reason: string)
    requires id in state.steps && state.steps[id].output.None?
    ensures id in FailedState(state, id, reason).steps && FailedState(state, id, reason).steps[id].output.None?
  {
  }

  /** A flow that is accepted and starts clean, in which the engine refuses a failure: the step
      it leads to quotes the output of the step that failed. That step stays Running. */
  lemma FailureRefused(new_: NewRun, first: Step, second: Step, reason: string)
    requires Blaming(new_.definition, first, second)
    ensures Accepted(new_.definition) && StartsClean(new_.definition)
    ensures var flow, start := new_.definition, NewPlay(new_);
            && Playable(flow, start, [START])
            && var state := Play(flow, start, [START]).state;
            Enabled(state, Event.StepFailed(first.id, reason))
            && Decide(flow, state, Event.StepFailed(first.id, reason)).Err?
  {
    hide *;
    var flow, start, event := new_.definition, NewPlay(new_), Event.StepFailed(first.id, reason);
    BlamingParts(flow, first, second);
    PairBasics(flow, first, second);
    PairFacts(flow, first, second);
    PairAccepted(flow, first, second);
    PairSources(flow, first, second, first.id);
    TimesOfTwo(DONE, second.id, first.id);
    NotAmong(DONE, first.id);
    NoSources(flow, first);
    CleanEntry(flow, first.id);
    CanStart(flow, first);
    Starts(new_, first.id);
    BegunRow(new_, first.id);
    var state := Begun(new_, first.id).state;
    FailsAfter(flow, state, first, reason);
    BegunOutput(new_, first.id);
    FailureHasNoOutput(state, first.id, reason);
    ConsideredFailure(state, first.id, reason);
    QuoteRefused(flow, FailedState(state, first.id, reason), first.id, second);
    InOne(second.id);
    Legality.IllegalRefusedExactly(flow, state, event);
  }

  lemma NotAmong(a: StepId, id: StepId)
    requires a != id
    ensures Times([a], id) == 0
  {
    assert [a][..0] == [];
  }

  lemma BegunOutput(new_: NewRun, first: StepId)
    ensures first in Begun(new_, first).state.steps && Begun(new_, first).state.steps[first].output.None?
  {
  }

  lemma ConsideredFailure(state: RunState, id: StepId, reason: string)
    ensures StepEvent(Event.StepFailed(id, reason))
    ensures Considered(state, Event.StepFailed(id, reason)) == FailedState(state, id, reason)
  {
  }

  lemma FailsAfter(flow: Flow, state: RunState, s: Step, reason: string)
    requires flow.StepOf(s.id) == Some(s) && HasStatus(state, s.id, StepStatus.Running)
    requires state.steps[s.id].attempt > s.retries
    ensures var event := Event.StepFailed(s.id, reason);
            Enabled(state, event) && !Reruns(flow, state, event)
            && TargetsOf(flow, state, event) == RouteTargets(s.onFailure)
  {
  }

  /** The same flow with a plain second step. */
  ghost predicate Following(flow: Flow, first: Step, second: Step) {
    && PairShape(flow, first, second) && Unattended(first) && Plain(first) && Plain(second)
    && first.onSuccess == Some(One(DONE)) && first.onFailure == Some(One(second.id)) && first.retries == 0
    && first.id !in AllRoutes(second) && first.needs == [] && second.needs == []
  }

  lemma FollowingParts(flow: Flow, first: Step, second: Step)
    requires Following(flow, first, second)
    ensures PairShape(flow, first, second) && Plain(first) && Plain(second) && Times(AllRoutes(second), first.id) == 0
    ensures AllRoutes(first) == [DONE, second.id] && RouteTargets(first.onFailure) == [second.id]
    ensures first.needs == [] && second.needs == [] && first.retries == 0
  {
    UnattendedRoutes(first);
    hide PairShape, AllRoutes, ForwardRoutes;
  }

  /** An accepted flow that starts clean, and a run in which a step has a row while the step
      guaranteed before it has never completed. */
  lemma NeverCompleted(new_: NewRun, first: Step, second: Step, reason: string) returns (moves: seq<Move>)
    requires Following(new_.definition, first, second)
    ensures Accepted(new_.definition) && StartsClean(new_.definition)
    ensures Direct(new_.definition, second.id) == {first.id}
    ensures Playable(new_.definition, NewPlay(new_), moves)
    ensures var r := Play(new_.definition, NewPlay(new_), moves);
            second.id in r.state.steps && !Outputs.Finished(r.trail, first.id)
  {
    hide *;
    var flow, start, event := new_.definition, NewPlay(new_), Event.StepFailed(first.id, reason);
    FollowingParts(flow, first, second);
    PairBasics(flow, first, second);
    PairFacts(flow, first, second);
    PairAccepted(flow, first, second);
    PairDirect(flow, first, second);
    PairSources(flow, first, second, first.id);
    TimesOfTwo(DONE, second.id, first.id);
    NoSources(flow, first);
    CleanEntry(flow, first.id);
    CanStart(flow, first);
    Starts(new_, first.id);
    BegunRow(new_, first.id);
    var r := Begun(new_, first.id);
    InOne(second.id);
    FailureRoutes(flow, r.state, first, reason);
    var e := Transition(flow, r.state, event).value;
    FailureJoins.UnhappyActivates(flow, r.state, event, e, second.id);
    OpenGate(flow, r.state, event, second);
    FailureMark(flow, r.state, event, e);
    Outputs.AfterFinished(r, e, |e.activations|, first.id);
    NotFinished(new_, first.id);
    AcceptedMove(flow, r, event, e);
    PlaySnoc(flow, start, [START], Did(event, |e.activations|));
    moves := [START] + [Did(event, |e.activations|)];
    AfterRows(flow, r, event, e, |e.activations|);
    assert e.activations[..|e.activations|] == e.activations;
    KeysAfter(r.state.steps, event, e, |e.activations|, After(r, e, |e.activations|).state.steps, second.id);
    MoveIs(flow, r, event, e);
  }

  lemma OpenGate(flow: Flow, state: RunState, event: Event, s: Step)
    requires flow.StepOf(s.id) == Some(s) && s.needs == [] && s.id != DONE && s.id in TargetsOf(flow, state, event)
    requires event.StepFailed? && FailureJoins.Unhappy(flow, state, event)
    ensures FailureJoins.Reaches(flow, state, event, s.id)
  {
    hide FailureJoins.Unhappy;
  }

  lemma FailureMark(flow: Flow, state: RunState, event: Event, e: Effect)
    requires FailureJoins.Unhappy(flow, state, event) && event.StepFailed? && Transition(flow, state, event) == Ok(e)
    ensures e.mark != Some(Mark(event.stepId, StepStatus.Completed))
  {
    hide Transition, FailureJoins.Unhappy;
    FailureJoins.UnhappyCancels(flow, state, event, e);
  }

  lemma NotFinished(new_: NewRun, first: StepId)
    ensures !Outputs.Finished(Begun(new_, first).trail, first)
  {
  }

  lemma MoveIs(flow: Flow, r: Run, event: Event, e: Effect)
    requires CanMove(flow, r, Did(event, |e.activations|)) && Transition(flow, r.state, event) == Ok(e)
    ensures Moved(flow, r, Did(event, |e.activations|)) == After(r, e, |e.activations|)
  {
    hide Transition, After;
  }

  const FRAGILE: Step :=
    Step("fragile", PLAIN, false, 0, None, Some(One(DONE)), Some(One("cleanup-all")), None, None, [])
  const CLEANUP: Step := Step("cleanup-all", PLAIN, false, 0, None, Some(One(DONE)), None, None, None, [])

  lemma FollowingFlow()
    ensures Following(FlowOf("following", [FRAGILE, CLEANUP]), FRAGILE, CLEANUP)
  {
    FollowingIds();
    hide ValidId, Following;
    FollowingMade(FlowOf("following", [FRAGILE, CLEANUP]), FRAGILE, CLEANUP);
  }

  lemma FollowingIds()
    ensures FRAGILE.id != CLEANUP.id && FRAGILE.id != DONE && CLEANUP.id != DONE && ValidId(FRAGILE.id)
    ensures ValidId(CLEANUP.id)
  {
    assert |FRAGILE.id| == 7 && |CLEANUP.id| == 11 && |DONE| == 4;
  }

  lemma FollowingMade(flow: Flow, first: Step, second: Step)
    requires flow.steps == [first, second] && first.id != second.id && first.id != DONE && second.id != DONE
    requires ValidId(first.id) && ValidId(second.id) && first.rejectInput.None? && second.rejectInput.None?
    requires Unattended(first) && Unattended(second) && Plain(first) && Plain(second) && first.retries == 0
    requires first.onSuccess == Some(One(DONE)) && first.onFailure == Some(One(second.id)) && first.needs == []
    requires second.onSuccess == Some(One(DONE)) && second.onFailure.None? && second.needs == []
    ensures Following(flow, first, second)
  {
    UnattendedRoutes(first);
    OneRoute(second);
    TimesOfTwo(DONE, second.id, second.id);
    NotAmong(DONE, first.id);
    InTwo(DONE, second.id);
    InOne(DONE);
    assert StepRefs("") == [];
    hide ValidId, StepRefs, AllRoutes, ForwardRoutes, Times;
  }

  const BUILT: Step := Step("built", PLAIN, false, 0, None, Some(One(DONE)), Some(One("blame")), None, None, [])
  const BLAME: Step :=
    Step("blame", PLAIN.(input := Arguments.OutputOf("built")), false, 0, None, Some(One(DONE)), None, None, None, [])

  lemma BlamingIds()
    ensures BUILT.id != BLAME.id && BUILT.id != DONE && BLAME.id != DONE && ValidId(BUILT.id) && ValidId(BLAME.id)
    ensures '.' !in BUILT.id && '{' !in BUILT.id && '}' !in BUILT.id
  {
    hide Arguments.OutputOf;
    assert |BUILT.id| == 5 && |BLAME.id| == 5 && BUILT.id[1] == 'u' && BLAME.id[1] == 'l' && |DONE| == 4;
  }

  lemma BlamingFlow()
    ensures Blaming(FlowOf("blaming", [BUILT, BLAME]), BUILT, BLAME)
  {
    BlamingIds();
    Arguments.OutputTemplateQuotes(BUILT.id);
    Arguments.OutputWritable(BUILT.id);
    Paths.ReferenceRefs(["steps", BUILT.id, "output"]);
    hide Arguments.OutputOf, Arguments.Quotes, StepRefs, ValidId, Blaming;
    BlamingMade(FlowOf("blaming", [BUILT, BLAME]), BUILT, BLAME);
  }

  lemma BlamingMade(flow: Flow, first: Step, second: Step)
    requires flow.steps == [first, second] && first.id != second.id && first.id != DONE && second.id != DONE
    requires ValidId(first.id) && ValidId(second.id) && first.rejectInput.None? && second.rejectInput.None?
    requires Unattended(first) && Unattended(second) && Plain(first) && first.retries == 0
    requires first.onSuccess == Some(One(DONE)) && first.onFailure == Some(One(second.id)) && first.needs == []
    requires second.onSuccess == Some(One(DONE)) && second.onFailure.None? && second.needs == []
    requires Arguments.Quotes(second.with.input, first.id) && StepRefs(second.with.input) == [first.id]
    ensures Blaming(flow, first, second)
  {
    hide *;
    TwoRoutes(first, DONE, second.id);
    OneRoute(second);
    UnattendedPaired(flow, first);
    UnattendedPaired(flow, second);
    TimesOfTwo(DONE, second.id, second.id);
    NotAmong(DONE, first.id);
    InTwo(DONE, second.id);
    InOne(DONE);
    InOne(first.id);
    NoInput(first);
    PairIs(flow, first, second);
    BlamingIs(flow, first, second);
  }

  lemma NoInput(s: Step)
    requires Plain(s)
    ensures s.with.input == ""
  {
  }

  lemma BlamingIs(flow: Flow, first: Step, second: Step)
    requires PairShape(flow, first, second) && Unattended(first) && Unattended(second) && Plain(first)
    requires first.retries == 0
    requires first.onSuccess == Some(One(DONE)) && first.onFailure == Some(One(second.id)) && first.needs == []
    requires second.onSuccess == Some(One(DONE)) && second.onFailure.None? && second.needs == []
    requires Arguments.Quotes(second.with.input, first.id)
    ensures Blaming(flow, first, second)
  {
    hide PairShape, Arguments.Quotes;
  }

  // ----- an argument that quotes what just arrived --------------------------------------

  /** The first step hands over to the second, one of whose other arguments quotes it. */
  ghost predicate Quoting(flow: Flow, first: Step, second: Step) {
    && PairShape(flow, first, second) && !first.humanLoop && Plain(first) && Plain(second)
    && first.onSuccess == Some(One(second.id)) && first.needs == [] && second.needs == [first.id]
    && first.with == PLAIN && flow.defaults == FlowDefaults(None, None) && Arguments.HasQuote(second, first.id)
  }

  lemma QuotingParts(flow: Flow, first: Step, second: Step)
    requires Quoting(flow, first, second)
    ensures PairShape(flow, first, second) && Plain(first) && Plain(second) && !first.humanLoop
    ensures Arguments.HasQuote(second, first.id)
    ensures SuccessRoute(first) == [second.id] && first.needs == [] && second.needs == [first.id]
    ensures first.with == PLAIN && flow.defaults == FlowDefaults(None, None)
  {
    hide PairShape, Arguments.HasQuote;
  }

  lemma PlainRequest(flow: Flow, s: Step, ctx: TemplateContext)
    requires s.with == PLAIN && flow.defaults == FlowDefaults(None, None)
    ensures RequestBuilds(flow, s, ctx, "")
  {
    TemplateProofs.SecondPassIsIdentity("tool");
    TemplateProofs.SecondPassIsIdentity("");
    assert FindDouble("tool", '{').None? by { Paths.NoDouble("tool", '{'); }
    hide Resolve, FindDouble;
  }

  lemma FirstRequest(id: RunId, new_: NewRun, s: Step)
    requires new_.definition.StepOf(s.id) == Some(s) && s.with == PLAIN
    requires new_.definition.defaults == FlowDefaults(None, None)
    ensures Built(NewView(id, new_).rec, [StepActivation(s.id, 1, "")]) == 1
  {
    var rec, act := NewView(id, new_).rec, StepActivation(s.id, 1, "");
    PlainRequest(new_.definition, s, BuildContext(rec.definition, RunStateOf(rec)));
    hide RequestBuilds, BuildContext;
    assert ActivationBuilds(rec, act);
    hide ActivationBuilds;
    assert [act][1..] == [];
  }

  /** The stored run, once it has been started: its first step runs. */
  lemma StoredStart(id: RunId, new_: NewRun, first: Step) returns (v: RunView)
    requires EntrySteps(new_.definition) == [first.id] && new_.definition.StepOf(first.id) == Some(first)
    requires Startable(new_.definition, first.id)
    requires first.with == PLAIN && new_.definition.defaults == FlowDefaults(None, None) && Plain(first)
    ensures var actions := [Submit(Event.RunStarted, 1)];
            && History(NewView(id, new_), actions) && v == StoredAfter(NewView(id, new_), actions)
            && Shows(v, new_.definition, Begun(new_, first.id))
  {
    var flow, start, v0 := new_.definition, NewPlay(new_), NewView(id, new_);
    StartedEntry(flow, start.state, first.id);
    PlainResolves(first, BuildContext(flow, start.state));
    Starts(new_, first.id);
    NewShows(id, new_);
    NewInvariant(new_);
    FirstRequest(id, new_, first);
    var e := Effect(None, [], start.state, [StepActivation(first.id, 1, "")], [], None);
    StartPossible(v0, flow, start);
    hide *;
    VerdictsOpen(flow, start);
    var j := SubmitRefines(v0, flow, start, Event.RunStarted, e, 1);
    BegunBy(new_, first.id, e);
    v := SubmittedUpTo(v0, Event.RunStarted, 1);
    OneSubmit(v0);
  }

  lemma StartPossible(v: RunView, flow: Flow, start: Run)
    requires Shows(v, flow, start) && start.state.steps == map[]
    ensures Possible(v, Submit(Event.RunStarted, 1)) && Enabled(start.state, Event.RunStarted)
  {
    ShownState(v, flow, start);
    hide Shows;
  }

  lemma BegunBy(new_: NewRun, first: StepId, e: Effect)
    requires Transition(new_.definition, NewPlay(new_).state, Event.RunStarted) == Ok(e) && |e.activations| == 1
    requires Playable(new_.definition, NewPlay(new_), [START])
    requires Play(new_.definition, NewPlay(new_), [START]) == Begun(new_, first)
    ensures After(NewPlay(new_), e, 1) == Begun(new_, first)
  {
    hide Transition, After, Begun;
    assert [START][..0] == [];
  }

  lemma OneSubmit(v0: RunView)
    requires Possible(v0, Submit(Event.RunStarted, 1))
    ensures History(v0, [Submit(Event.RunStarted, 1)])
    ensures StoredAfter(v0, [Submit(Event.RunStarted, 1)]) == SubmittedUpTo(v0, Event.RunStarted, 1)
  {
    hide Possible, SubmittedUpTo;
    assert [Submit(Event.RunStarted, 1)][..0] == [];
  }

  /** A reachable stored run of an accepted flow in which the completion of the first step is
      lost: submitting it changes nothing, and the step stays Running. */
  lemma CompletionLost(id: RunId, new_: NewRun, first: Step, second: Step, output: Value)
    requires Quoting(new_.definition, first, second)
    ensures var actions := [Submit(Event.RunStarted, 1)];
            && Accepted(new_.definition) && History(NewView(id, new_), actions)
            && var v := StoredAfter(NewView(id, new_), actions);
            v.rec.phase == RunPhase.Running && HasStatus(RunStateOf(v.rec), first.id, StepStatus.Running)
            && Decide(new_.definition, RunStateOf(v.rec), Event.StepCompleted(first.id, output)).Ok?
            && Submitted(v, Event.StepCompleted(first.id, output)) == v
  {
    hide *;
    var flow := new_.definition;
    QuotingParts(flow, first, second);
    PairBasics(flow, first, second);
    PairFacts(flow, first, second);
    PairAccepted(flow, first, second);
    CanStart(flow, first);
    var v := StoredStart(id, new_, first);
    BegunRow(new_, first.id);
    var r := Begun(new_, first.id);
    ShownState(v, flow, r);
    Arguments.ShownPhase(v, flow, r);
    InOne(second.id);
    InOne(first.id);
    CompletionRoutes(flow, r.state, first, output);
    var event := Event.StepCompleted(first.id, output);
    var e := Transition(flow, r.state, event).value;
    CompletionOpens(flow, r.state, first, second, output, e);
    Decided(flow, r.state, event);
    Arguments.QuotedCompletionIsLost(id, new_, [Submit(Event.RunStarted, 1)], first.id, output, e);
  }

  lemma Decided(flow: Flow, state: RunState, event: Event)
    ensures Transition(flow, state, event).Ok? ==> Decide(flow, state, event).Ok?
  {
    hide Transition, CommandsOf;
  }

  /** The completion starts the second step. */
  lemma CompletionOpens(flow: Flow, state: RunState, first: Step, second: Step, output: Value, e: Effect)
    requires flow.StepOf(first.id) == Some(first) && flow.StepOf(second.id) == Some(second) && second.id != DONE
    requires SuccessRoute(first) == [second.id] && second.needs == [first.id] && NoVerdictYet(state.steps)
    requires HasStatus(state, first.id, StepStatus.Running) && !first.humanLoop
    requires Transition(flow, state, Event.StepCompleted(first.id, output)) == Ok(e)
    ensures e.activations != [] && e.activations[0].stepId == second.id
  {
    var next := Upsert(state, first.id, StepStatus.Completed, Some(output));
    CompletionFollows(flow, state, first, output, e);
    assert next.steps[first.id].status == StepStatus.Completed;
    GateAfter(flow, next, second, first.id);
    ActivatedTargets(flow, next, BuildContext(flow, next), [second.id]);
    hide *;
    InOne(second.id);
    SomeActs(e.activations, second.id);
    FirstAct(e.activations);
  }

  lemma FirstAct(acts: seq<StepActivation>)
    ensures acts != [] ==> acts[0].stepId in ActIds(acts)
  {
  }

  lemma CompletionFollows(flow: Flow, state: RunState, s: Step, output: Value, e: Effect)
    requires flow.StepOf(s.id) == Some(s) && !s.humanLoop
    requires Transition(flow, state, Event.StepCompleted(s.id, output)) == Ok(e)
    ensures var next := Upsert(state, s.id, StepStatus.Completed, Some(output));
            ActivateTargets(flow, next, BuildContext(flow, next), SuccessRoute(s)) == Ok(e.activations)
  {
    hide Upsert, BuildContext, ActivateTargets, AllTerminal, Phase, Unreached;
  }

  const DRAFT: Step := Step("draft", PLAIN, false, 0, None, Some(One("send")), None, None, None, [])
  const SEND: Step :=
    Step("send", PLAIN.(extra := map["subject" := JString(Arguments.OutputOf("draft"))]), false, 0, None,
                           Some(One(DONE)), None, None, None, ["draft"])

  lemma QuotingFlow()
    ensures Quoting(FlowOf("quoting", [DRAFT, SEND]), DRAFT, SEND)
  {
    QuotingIds();
    Arguments.OutputTemplateQuotes(DRAFT.id);
    hide Arguments.OutputOf, Arguments.Quotes, ValidId, Quoting;
    assert "subject" in SEND.with.extra && SEND.with.extra["subject"] == JString(Arguments.OutputOf(DRAFT.id));
    assert Arguments.HasQuote(SEND, DRAFT.id);
    hide Arguments.HasQuote;
    QuotingMade(FlowOf("quoting", [DRAFT, SEND]), DRAFT, SEND);
  }

  lemma QuotingIds()
    ensures DRAFT.id != SEND.id && DRAFT.id != DONE && SEND.id != DONE && ValidId(DRAFT.id) && ValidId(SEND.id)
    ensures '.' !in DRAFT.id && '{' !in DRAFT.id && '}' !in DRAFT.id
  {
    hide Arguments.OutputOf;
    assert |DRAFT.id| == 5 && |SEND.id| == 4 && |DONE| == 4 && SEND.id[0] == 's' && DONE[0] == 'd';
  }

  lemma QuotingMade(flow: Flow, first: Step, second: Step)
    requires flow.steps == [first, second] && first.id != second.id && first.id != DONE && second.id != DONE
    requires ValidId(first.id) && ValidId(second.id) && first.rejectInput.None? && second.rejectInput.None?
    requires Unattended(first) && Unattended(second) && Plain(first) && Plain(second)
    requires first.onSuccess == Some(One(second.id)) && first.onFailure.None? && first.needs == []
    requires second.onSuccess == Some(One(DONE)) && second.onFailure.None? && second.needs == [first.id]
    requires first.with == PLAIN && flow.defaults == FlowDefaults(None, None) && Arguments.HasQuote(second, first.id)
    ensures Quoting(flow, first, second)
  {
    UnattendedRoutes(first);
    OneRoute(second);
    NotAmong(DONE, first.id);
    InOne(second.id);
    InOne(DONE);
    assert StepRefs("") == [];
    hide ValidId, StepRefs, AllRoutes, ForwardRoutes, Times, Arguments.HasQuote;
  }
}
