/** The run engine: from a flow, a run state and an event to commands. `Transition` is the
    reference: it says what state the engine has in mind after the event, which steps it
    activates and whether the run ends. The methods build the command list the way the
    source does and are proved to say the same. */
module Engine {
  import opened Wrappers
  import opened Ordering
  import opened FlowTypes
  import opened Template
  import opened RunTypes
  import Dag

  datatype Mark = Mark(stepId: StepId, status: StepStatus)

  /** What an event does: the mark on its own step, the steps it cancels, the state the
      engine reasons about next, the activations, the steps it marks skipped, the end. */
  datatype Effect = Effect(
    mark: Option<Mark>,
    cancels: seq<StepId>,
    next: RunState,
    activations: seq<StepActivation>,
    skips: seq<StepId>,
    finish: Option<RunPhase>)

  // ----- template context ---------------------------------------------------------------

  function TextValue(text: Option<string>): Option<Value> {
    match text
    case None => None
    case Some(s) => Some(JString(s))
  }

  function ContextOf(row: StepRun): StepContext {
    StepContext(row.output, TextValue(row.feedback), TextValue(row.approvalComment), None)
  }

  /** Every flow step that has a row is visible to templates. */
  function BuildContext(flow: Flow, state: RunState): TemplateContext {
    TemplateContext(state.inputs, state.trigger, JNULL,
                    map s | s in flow.steps && s.id in state.steps :: s.id := ContextOf(state.steps[s.id]), JNULL)
  }

  /** `build_context`, filling the step map one step at a time. */
  method BuildContextLoop(flow: Flow, state: RunState) returns (ctx: TemplateContext)
    ensures ctx == BuildContext(flow, state)
  {
    hide ContextOf;
    var steps: map<StepId, StepContext> := map[];
    for i := 0 to |flow.steps|
      invariant steps == map s | s in flow.steps[..i] && s.id in state.steps :: s.id := ContextOf(state.steps[s.id])
    {
      var id := flow.steps[i].id;
      assert flow.steps[..i + 1] == flow.steps[..i] + [flow.steps[i]];
      if id in state.steps { steps := steps[id := ContextOf(state.steps[id])]; }
    }
    assert flow.steps[..|flow.steps|] == flow.steps;
    ctx := TemplateContext(state.inputs, state.trigger, JNULL, steps, JNULL);
  }

  function InputError(r: Result<string, TemplateError>, id: StepId): Result<string, EngineError> {
    match r
    case Ok(s) => Ok(s)
    case Err(_) => Err(UnknownStep(id))
  }

  function ResolveInput(step: Step, ctx: TemplateContext): Result<string, EngineError> {
    InputError(Resolve(step.with.input, ctx), step.id)
  }

  function ResolveRejectInput(step: Step, ctx: TemplateContext, feedback: string): Result<string, EngineError> {
    match step.rejectInput
    case Some(template) => InputError(Resolve(template, ctx), step.id)
    case None =>
      match ResolveInput(step, ctx)
      case Err(e) => Err(e)
      case Ok(original) => Ok(original + "\n\nFeedback: " + feedback)
  }

  // ----- activation ---------------------------------------------------------------------

  predicate NeedsSatisfied(flow: Flow, state: RunState, step: Step) {
    forall n | n in step.needs ::
      flow.Defined(n) && n in state.steps && state.steps[n].status == StepStatus.Completed
  }

  function NextAttempt(state: RunState, id: StepId): nat {
    if id in state.steps then state.steps[id].attempt + 1 else 1
  }

  function Joined(acts: seq<StepActivation>,
                  r: Result<seq<StepActivation>, EngineError>): Result<seq<StepActivation>, EngineError> {
    match r
    case Ok(more) => Ok(acts + more)
    case Err(e) => Err(e)
  }

  /** One routing target: skipped, refused, or activated with its next attempt. */
  function ActivateOne(flow: Flow, state: RunState, ctx: TemplateContext,
                       target: StepId): Result<seq<StepActivation>, EngineError> {
    if target == DONE then Ok([])
    else match flow.StepOf(target)
      case None => Err(UnknownStep(target))
      case Some(step) =>
        if !NeedsSatisfied(flow, state, step) then Ok([])
        else match ResolveInput(step, ctx)
          case Err(e) => Err(e)
          case Ok(input) => Ok([StepActivation(step.id, NextAttempt(state, target), input)])
  }

  function ActivateTargets(flow: Flow, state: RunState, ctx: TemplateContext,
                           targets: seq<StepId>): Result<seq<StepActivation>, EngineError> {
    if targets == [] then Ok([])
    else match ActivateOne(flow, state, ctx, targets[0])
      case Err(e) => Err(e)
      case Ok(acts) => Joined(acts, ActivateTargets(flow, state, ctx, targets[1..]))
  }

  /** The activation is of a target that is a step with an open gate, with the input that the
      template of the step comes to. */
  ghost predicate FromTarget(flow: Flow, state: RunState, ctx: TemplateContext, targets: seq<StepId>,
                             act: StepActivation) {
    && act.stepId in targets && act.stepId != DONE && flow.Defined(act.stepId)
    && NeedsSatisfied(flow, state, flow.StepOf(act.stepId).value)
    && Resolve(flow.StepOf(act.stepId).value.with.input, ctx) == Ok(act.input)
  }

  lemma {:induction false} TargetInputs(flow: Flow, state: RunState, ctx: TemplateContext, targets: seq<StepId>,
                                        act: StepActivation)
    requires ActivateTargets(flow, state, ctx, targets).Ok?
    requires act in ActivateTargets(flow, state, ctx, targets).value
    ensures FromTarget(flow, state, ctx, targets, act)
  {
    hide Resolve, NeedsSatisfied, FirstStep;
    var one := ActivateOne(flow, state, ctx, targets[0]).value;
    if act !in one { TargetInputs(flow, state, ctx, targets[1..], act); }
  }

  // ----- state updates ------------------------------------------------------------------

  function PendingRow(id: StepId): StepRun {
    StepRun(id, StepStatus.Pending, 0, None, None, None, None, None, None, None)
  }

  function Upsert(state: RunState, id: StepId, status: StepStatus, output: Option<Value>): RunState {
    var row :=
      if id in state.steps
      then state.steps[id].(status := status, output := if output.Some? then output else state.steps[id].output)
      else PendingRow(id).(status := status, output := output, attempt := 1);
    state.(steps := state.steps[id := row])
  }

  function CancelRow(row: StepRun): StepRun {
    if row.status.IsActive() then row.(status := StepStatus.Cancelled) else row
  }

  function CancelActive(state: RunState): RunState {
    state.(steps := map id | id in state.steps :: CancelRow(state.steps[id]))
  }

  /** Ids of the active steps, in enumeration order. */
  function ActiveExcluding(state: RunState, excluding: StepId): seq<StepId> {
    SortedIds(set id | id in state.steps && state.steps[id].status.IsActive() && id != excluding)
  }

  /** A deadline or a cancel excludes the empty id, so a step of that name is passed over. */
  const NOTHING: StepId := ""

  predicate PassedOver(state: RunState) {
    NOTHING in state.steps && state.steps[NOTHING].status.IsActive()
  }

  function StoppedState(state: RunState): RunState {
    state.(steps := map id | id in state.steps :: if id == NOTHING then state.steps[id] else CancelRow(state.steps[id]))
  }

  function FailedState(state: RunState, id: StepId, reason: string): RunState {
    var s := CancelActive(Upsert(state, id, StepStatus.Failed, None));
    s.(steps := s.steps[id := s.steps[id].(failureReason := Some(reason))])
  }

  function ApprovedState(state: RunState, id: StepId, comment: Option<string>): RunState {
    var s := Upsert(state, id, StepStatus.Completed, None);
    s.(steps := s.steps[id := s.steps[id].(approvalStatus := Some(Approved), approvalComment := comment)])
  }

  function RejectedState(state: RunState, id: StepId, feedback: string): RunState {
    var s := Upsert(state, id, StepStatus.FailedRejected, None);
    s.(steps := s.steps[id := s.steps[id].(approvalStatus := Some(Rejected), feedback := Some(feedback))])
  }

  // ----- the transition -----------------------------------------------------------------

  function Unreached(steps: seq<Step>, state: RunState): seq<StepId> {
    if steps == [] then []
    else
      var n := |steps| - 1;
      Unreached(steps[..n], state) + (if steps[n].id in state.steps then [] else [steps[n].id])
  }

  /** Follow the routing targets from `next`; if nothing activates and nothing is left
      running, the run ends in the derived phase. */
  function Routed(flow: Flow, mark: Mark, cancels: seq<StepId>, next: RunState,
                  targets: seq<StepId>): Result<Effect, EngineError> {
    match ActivateTargets(flow, next, BuildContext(flow, next), targets)
    case Err(e) => Err(e)
    case Ok(acts) =>
      if acts == [] && AllTerminal(next)
      then Ok(Effect(Some(mark), cancels, next, [], Unreached(flow.steps, next), Some(Phase(next))))
      else Ok(Effect(Some(mark), cancels, next, acts, [], None))
  }

  function Started(flow: Flow, state: RunState): Result<Effect, EngineError> {
    match ActivateTargets(flow, state, BuildContext(flow, state), Dag.EntrySteps(flow))
    case Err(e) => Err(e)
    case Ok(acts) => Ok(Effect(None, [], state, acts, [], None))
  }

  function Completed(flow: Flow, state: RunState, id: StepId, output: Value): Result<Effect, EngineError> {
    match flow.StepOf(id)
    case None => Err(UnknownStep(id))
    case Some(step) =>
      if step.humanLoop then
        Ok(Effect(Some(Mark(id, WaitingApproval)), [], Upsert(state, id, WaitingApproval, Some(output)), [], [], None))
      else
        Routed(flow, Mark(id, StepStatus.Completed), [], Upsert(state, id, StepStatus.Completed, Some(output)),
               RouteTargets(step.onSuccess))
  }

  function Attempt(state: RunState, id: StepId): nat {
    if id in state.steps then state.steps[id].attempt else 1
  }

  function Failed(flow: Flow, state: RunState, id: StepId, reason: string): Result<Effect, EngineError> {
    match flow.StepOf(id)
    case None => Err(UnknownStep(id))
    case Some(step) =>
      if Attempt(state, id) <= step.retries then
        match ResolveInput(step, BuildContext(flow, state))
        case Err(e) => Err(e)
        case Ok(input) => Ok(Effect(None, [], state, [StepActivation(id, Attempt(state, id) + 1, input)], [], None))
      else
        Routed(flow, Mark(id, StepStatus.Failed), ActiveExcluding(state, id), FailedState(state, id, reason),
               RouteTargets(step.onFailure))
  }

  function ApprovedBy(flow: Flow, state: RunState, id: StepId, comment: Option<string>): Result<Effect, EngineError> {
    match flow.StepOf(id)
    case None => Err(UnknownStep(id))
    case Some(step) =>
      Routed(flow, Mark(id, StepStatus.Completed), [], ApprovedState(state, id, comment), RouteTargets(step.onApprove))
  }

  function RejectedBy(flow: Flow, state: RunState, id: StepId, feedback: string): Result<Effect, EngineError> {
    match flow.StepOf(id)
    case None => Err(UnknownStep(id))
    case Some(step) =>
      var next := RejectedState(state, id, feedback);
      if Dag.IsSelfRejectLoop(step) then
        match ResolveRejectInput(step, BuildContext(flow, next), feedback)
        case Err(e) => Err(e)
        case Ok(input) =>
          Ok(Effect(Some(Mark(id, FailedRejected)), [], next, [StepActivation(id, NextAttempt(state, id), input)], [],
                    None))
      else
        Routed(flow, Mark(id, FailedRejected), [], next, RouteTargets(step.onReject))
  }

  function Transition(flow: Flow, state: RunState, event: Event): Result<Effect, EngineError> {
    match event
    case RunStarted => Started(flow, state)
    case StepCompleted(id, output) => Completed(flow, state, id, output)
    case StepFailed(id, reason) => Failed(flow, state, id, reason)
    case StepApproved(id, comment) => ApprovedBy(flow, state, id, comment)
    case StepRejected(id, feedback) => RejectedBy(flow, state, id, feedback)
    case RunDeadlineExceeded =>
      Ok(Effect(None, ActiveExcluding(state, NOTHING), StoppedState(state), [], [], Some(RunPhase.Failed)))
    case CancelRequested =>
      Ok(Effect(None, ActiveExcluding(state, NOTHING), StoppedState(state).(cancelled := true), [], [],
                Some(RunPhase.Cancelled)))
  }

  // ----- commands -----------------------------------------------------------------------

  function MarkCommands(mark: Option<Mark>): seq<Command> {
    match mark
    case None => []
    case Some(m) =>
      [MarkStepStatus(m.stepId, m.status)] + (if m.status.WaitingApproval? then [WaitApproval(m.stepId)] else [])
  }

  function CancelCommands(ids: seq<StepId>): seq<Command> {
    if ids == [] then [] else [CancelSteps(ids)]
  }

  function ActivationCommands(acts: seq<StepActivation>): seq<Command> {
    if acts == [] then [] else [ActivateSteps([acts[0]])] + ActivationCommands(acts[1..])
  }

  function SkipCommands(ids: seq<StepId>): seq<Command> {
    if ids == [] then [] else SkipCommands(ids[..|ids| - 1]) + [MarkStepStatus(ids[|ids| - 1], Skipped)]
  }

  function FinishCommands(finish: Option<RunPhase>): seq<Command> {
    match finish
    case None => []
    case Some(p) => [MarkRunTerminal(p)]
  }

  function CommandsOf(e: Effect): seq<Command> {
    MarkCommands(e.mark) + CancelCommands(e.cancels) + ActivationCommands(e.activations)
    + (SkipCommands(e.skips) + FinishCommands(e.finish))
  }

  function CommandResult(r: Result<Effect, EngineError>): Result<seq<Command>, EngineError> {
    match r
    case Ok(e) => Ok(CommandsOf(e))
    case Err(e) => Err(e)
  }

  /** `decide`. */
  function Decide(flow: Flow, state: RunState, event: Event): Result<seq<Command>, EngineError> {
    CommandResult(Transition(flow, state, event))
  }

  // ----- the imperative form ------------------------------------------------------------

  lemma {:induction false} ActivationCommandsAppend(a: seq<StepActivation>, b: seq<StepActivation>)
    ensures ActivationCommands(a + b) == ActivationCommands(a) + ActivationCommands(b)
  {
    if a == [] {
      assert a + b == b;
    } else {
      ActivationCommandsAppend(a[1..], b);
      assert (a + b)[1..] == a[1..] + b;
    }
  }

  lemma JoinedTwice(a: seq<StepActivation>, b: seq<StepActivation>, r: Result<seq<StepActivation>, EngineError>)
    ensures Joined(a, Joined(b, r)) == Joined(a + b, r)
    ensures Joined([], r) == r
  {
    if r.Ok? {
      assert a + (b + r.value) == (a + b) + r.value;
      assert [] + r.value == r.value;
    }
  }

  /** `activate_targets`: pushes one `ActivateSteps` per target whose gate is open. */
  method RunActivateTargets(flow: Flow, state: RunState, ctx: TemplateContext, targets: seq<StepId>)
    returns (r: Result<seq<Command>, EngineError>, ghost acts: seq<StepActivation>)
    ensures r.Ok? ==> ActivateTargets(flow, state, ctx, targets) == Ok(acts) && r.value == ActivationCommands(acts)
    ensures r.Err? ==> ActivateTargets(flow, state, ctx, targets) == Err(r.error)
    ensures r.Ok? ==> forall a :: a in acts ==> FromTarget(flow, state, ctx, targets, a)
  {
    hide *;
    var commands: seq<Command> := [];
    acts := [];
    NoTargets(flow, state, ctx, targets);
    var i := 0;
    while i < |targets|
      invariant 0 <= i <= |targets|
      invariant ActivateTargets(flow, state, ctx, targets)
                == Joined(acts, ActivateTargets(flow, state, ctx, targets[i..]))
      invariant commands == ActivationCommands(acts)
    {
      var target := targets[i];
      i := i + 1;
      NextTarget(flow, state, ctx, targets, i - 1, acts);
      if target == DONE { continue; }
      var step := flow.StepOf(target);
      if step.None? { return Err(UnknownStep(target)), acts; }
      if !NeedsSatisfied(flow, state, step.value) { continue; }
      var input := ResolveInput(step.value, ctx);
      if input.Err? { return Err(input.error), acts; }
      var act := StepActivation(step.value.id, NextAttempt(state, target), input.value);
      OneActivation(acts, act);
      acts := acts + [act];
      commands := commands + [ActivateSteps([act])];
    }
    LastTarget(flow, state, ctx, targets, acts);
    forall a | a in acts ensures FromTarget(flow, state, ctx, targets, a) {
      TargetInputs(flow, state, ctx, targets, a);
    }
    r := Ok(commands);
  }

  lemma NoTargets(flow: Flow, state: RunState, ctx: TemplateContext, targets: seq<StepId>)
    ensures ActivateTargets(flow, state, ctx, targets) == Joined([], ActivateTargets(flow, state, ctx, targets[0..]))
    ensures ActivationCommands([]) == []
  {
    assert targets[0..] == targets;
    JoinedTwice([], [], ActivateTargets(flow, state, ctx, targets));
  }

  lemma LastTarget(flow: Flow, state: RunState, ctx: TemplateContext, targets: seq<StepId>, acts: seq<StepActivation>)
    ensures Joined(acts, ActivateTargets(flow, state, ctx, targets[|targets|..])) == Ok(acts)
  {
    assert acts + [] == acts;
  }

  lemma OneActivation(acts: seq<StepActivation>, act: StepActivation)
    ensures ActivationCommands(acts + [act]) == ActivationCommands(acts) + [ActivateSteps([act])]
  {
    ActivationCommandsAppend(acts, [act]);
    assert ActivationCommands([act]) == [ActivateSteps([act])];
  }

  /** How one target moves the loop on, by the branch it takes. */
  lemma NextTarget(flow: Flow, state: RunState, ctx: TemplateContext, targets: seq<StepId>, i: nat,
                   acts: seq<StepActivation>)
    requires i < |targets|
    ensures var target := targets[i];
            var now := Joined(acts, ActivateTargets(flow, state, ctx, targets[i..]));
            var rest := ActivateTargets(flow, state, ctx, targets[i + 1..]);
            var step := flow.StepOf(target);
            && (target == DONE ==> now == Joined(acts, rest))
            && (target != DONE && step.None? ==> now == Err(UnknownStep(target)))
            && (target != DONE && step.Some? && !NeedsSatisfied(flow, state, step.value) ==> now == Joined(acts, rest))
            && (target != DONE && step.Some? && NeedsSatisfied(flow, state, step.value) ==>
                  match ResolveInput(step.value, ctx)
                  case Err(e) => now == Err(e)
                  case Ok(input) =>
                    now == Joined(acts + [StepActivation(step.value.id, NextAttempt(state, target), input)], rest))
  {
    var rest := ActivateTargets(flow, state, ctx, targets[i + 1..]);
    assert targets[i..][1..] == targets[i + 1..];
    match ActivateOne(flow, state, ctx, targets[i]) {
      case Ok(one) =>
        JoinedTwice(acts, one, rest);
        assert acts + [] == acts;
      case Err(_) =>
    }
  }

  /** `terminal_commands_if_done`. */
  method TerminalCommandsIfDone(flow: Flow, state: RunState) returns (commands: seq<Command>)
    ensures commands == if AllTerminal(state)
                        then SkipCommands(Unreached(flow.steps, state)) + FinishCommands(Some(Phase(state)))
                        else []
  {
    commands := [];
    if !AllTerminal(state) { return; }
    for i := 0 to |flow.steps|
      invariant commands == SkipCommands(Unreached(flow.steps[..i], state))
    {
      assert flow.steps[..i + 1][..i] == flow.steps[..i];
      ghost var before := Unreached(flow.steps[..i], state);
      if flow.steps[i].id !in state.steps {
        commands := commands + [MarkStepStatus(flow.steps[i].id, Skipped)];
        assert (before + [flow.steps[i].id])[..|before|] == before;
      } else {
        assert before + [] == before;
      }
    }
    assert flow.steps[..|flow.steps|] == flow.steps;
    var phase := Phase(state);
    if phase != RunPhase.Running { commands := commands + [MarkRunTerminal(phase)]; }
  }

  lemma Assembled(e: Effect, head: seq<Command>, acts: seq<Command>, ending: seq<Command>)
    requires head == MarkCommands(e.mark) + CancelCommands(e.cancels)
    requires acts == ActivationCommands(e.activations)
    requires ending == SkipCommands(e.skips) + FinishCommands(e.finish)
    ensures CommandsOf(e) == head + acts + ending
    ensures acts == [] ==> CommandsOf(e) == head + ending
    ensures ending == [] ==> CommandsOf(e) == head + acts
  {
    assert acts == [] ==> head + acts == head;
    assert ending == [] ==> head + acts + ending == head + acts;
  }

  /** The end shared by every routing handler: activations, or the terminal check. */
  method Route(flow: Flow, mark: Mark, cancels: seq<StepId>, next: RunState, targets: seq<StepId>)
    returns (r: Result<seq<Command>, EngineError>)
    requires !mark.status.WaitingApproval?
    ensures r == CommandResult(Routed(flow, mark, cancels, next, targets))
  {
    hide NeedsSatisfied, ActivateTargets, Unreached, AllTerminal, Phase, SkipCommands, CommandsOf, ActivationCommands;
    var commands := [MarkStepStatus(mark.stepId, mark.status)];
    if cancels != [] { commands := commands + [CancelSteps(cancels)]; }
    assert commands == MarkCommands(Some(mark)) + CancelCommands(cancels);
    var ctx := BuildContextLoop(flow, next);
    var activations, acts := RunActivateTargets(flow, next, ctx, targets);
    if activations.Err? { return Err(activations.error); }
    ActivatingSome(acts);
    NoSkips();
    if activations.value == [] {
      var ending := TerminalCommandsIfDone(flow, next);
      Assembled(Routed(flow, mark, cancels, next, targets).value, commands, [], ending);
      commands := commands + ending;
    } else {
      Assembled(Routed(flow, mark, cancels, next, targets).value, commands, activations.value, []);
      commands := commands + activations.value;
    }
    r := Ok(commands);
  }

  lemma ActivatingSome(acts: seq<StepActivation>)
    ensures ActivationCommands(acts) == [] <==> acts == []
  {
  }

  lemma NoSkips()
    ensures SkipCommands([]) + FinishCommands(None) == []
    ensures SkipCommands([]) == []
  {
  }

  /** The command lists of the effects that route nowhere. */
  lemma ShortCommands(id: StepId, next: RunState, act: StepActivation)
    ensures CommandsOf(Effect(None, [], next, [act], [], None)) == [ActivateSteps([act])]
    ensures CommandsOf(Effect(Some(Mark(id, FailedRejected)), [], next, [act], [], None))
            == [MarkStepStatus(id, FailedRejected), ActivateSteps([act])]
    ensures CommandsOf(Effect(Some(Mark(id, WaitingApproval)), [], next, [], [], None))
            == [MarkStepStatus(id, WaitingApproval), WaitApproval(id)]
  {
    NoSkips();
    assert ActivationCommands([act]) == [ActivateSteps([act])];
    Assembled(Effect(None, [], next, [act], [], None), [], [ActivateSteps([act])], []);
    Assembled(Effect(Some(Mark(id, FailedRejected)), [], next, [act], [], None),
              [MarkStepStatus(id, FailedRejected)], [ActivateSteps([act])], []);
    Assembled(Effect(Some(Mark(id, WaitingApproval)), [], next, [], [], None),
              [MarkStepStatus(id, WaitingApproval), WaitApproval(id)], [], []);
  }

  /** `decide`, handler by handler, with the command list pushed as the source pushes it. */
  method RunDecide(flow: Flow, state: RunState, event: Event) returns (r: Result<seq<Command>, EngineError>)
    ensures r == Decide(flow, state, event)
  {
    hide Started, Completed, Failed, ApprovedBy, RejectedBy, StoppedState, ActiveExcluding, CommandsOf, StopActive;
    match event {
      case RunStarted => r := OnRunStarted(flow, state);
      case StepCompleted(id, output) => r := OnStepCompleted(flow, state, id, output);
      case StepFailed(id, reason) => r := OnStepFailed(flow, state, id, reason);
      case StepApproved(id, comment) => r := OnStepApproved(flow, state, id, comment);
      case StepRejected(id, feedback) => r := OnStepRejected(flow, state, id, feedback);
      case RunDeadlineExceeded =>
        r := Ok(StopActive(state, RunPhase.Failed));
        assert r == Decide(flow, state, event);
      case CancelRequested =>
        r := Ok(StopActive(state, RunPhase.Cancelled));
        assert r == Decide(flow, state, event);
    }
  }

  method OnRunStarted(flow: Flow, state: RunState) returns (r: Result<seq<Command>, EngineError>)
    ensures r == CommandResult(Started(flow, state))
  {
    hide CommandsOf, BuildContext, ActivateTargets, Dag.EntrySteps;
    var ctx := BuildContextLoop(flow, state);
    var entries := Dag.FindEntrySteps(flow);
    var activations, acts := RunActivateTargets(flow, state, ctx, entries);
    if activations.Err? { return Err(activations.error); }
    NoSkips();
    Assembled(Effect(None, [], state, acts, [], None), [], activations.value, []);
    assert [] + activations.value == activations.value;
    r := Ok(activations.value);
  }

  method OnStepApproved(flow: Flow, state: RunState, id: StepId, comment: Option<string>)
      returns (r: Result<seq<Command>, EngineError>)
    ensures r == CommandResult(ApprovedBy(flow, state, id, comment))
  {
    hide CommandsOf, Routed, ApprovedState;
    var step := flow.StepOf(id);
    if step.None? { return Err(UnknownStep(id)); }
    r := Route(flow, Mark(id, StepStatus.Completed), [], ApprovedState(state, id, comment),
               RouteTargets(step.value.onApprove));
  }

  /** The commands of a deadline or a cancel: stop what is active, then end the run. */
  function StopActive(state: RunState, phase: RunPhase): (commands: seq<Command>)
    ensures forall next ::
              commands == CommandsOf(Effect(None, ActiveExcluding(state, NOTHING), next, [], [], Some(phase)))
  {
    var active := ActiveExcluding(state, NOTHING);
    var cancelling := if active != [] then [CancelSteps(active)] else [];
    NoSkips();
    assert [] + cancelling + [] + ([] + [MarkRunTerminal(phase)]) == cancelling + [MarkRunTerminal(phase)];
    cancelling + [MarkRunTerminal(phase)]
  }

  method OnStepCompleted(flow: Flow, state: RunState, id: StepId, output: Value)
      returns (r: Result<seq<Command>, EngineError>)
    ensures r == CommandResult(Completed(flow, state, id, output))
  {
    hide CommandsOf, Routed, BuildContext, ResolveInput, ResolveRejectInput, FailedState, RejectedState, Upsert;
    var step := flow.StepOf(id);
    if step.None? { return Err(UnknownStep(id)); }
    if step.value.humanLoop {
      ShortCommands(id, Upsert(state, id, WaitingApproval, Some(output)), StepActivation(id, 0, ""));
      r := Ok([MarkStepStatus(id, WaitingApproval), WaitApproval(id)]);
    } else {
      r := Route(flow, Mark(id, StepStatus.Completed), [], Upsert(state, id, StepStatus.Completed, Some(output)),
                 RouteTargets(step.value.onSuccess));
    }
  }

  method OnStepFailed(flow: Flow, state: RunState, id: StepId, reason: string)
      returns (r: Result<seq<Command>, EngineError>)
    ensures r == CommandResult(Failed(flow, state, id, reason))
  {
    hide CommandsOf, Routed, BuildContext, ResolveInput, ResolveRejectInput, FailedState, RejectedState, Upsert;
    var step := flow.StepOf(id);
    if step.None? { return Err(UnknownStep(id)); }
    var attempt := Attempt(state, id);
    if attempt <= step.value.retries {
      var ctx := BuildContextLoop(flow, state);
      var input := ResolveInput(step.value, ctx);
      if input.Err? { return Err(input.error); }
      var act := StepActivation(id, attempt + 1, input.value);
      ShortCommands(id, state, act);
      r := Ok([ActivateSteps([act])]);
    } else {
      r := Route(flow, Mark(id, StepStatus.Failed), ActiveExcluding(state, id), FailedState(state, id, reason),
                 RouteTargets(step.value.onFailure));
    }
  }

  method OnStepRejected(flow: Flow, state: RunState, id: StepId, feedback: string)
      returns (r: Result<seq<Command>, EngineError>)
    ensures r == CommandResult(RejectedBy(flow, state, id, feedback))
  {
    hide CommandsOf, Routed, BuildContext, ResolveInput, ResolveRejectInput, FailedState, RejectedState, Upsert;
    var step := flow.StepOf(id);
    if step.None? { return Err(UnknownStep(id)); }
    var next := RejectedState(state, id, feedback);
    if Dag.IsSelfRejectLoop(step.value) {
      var ctx := BuildContextLoop(flow, next);
      var input := ResolveRejectInput(step.value, ctx, feedback);
      if input.Err? { return Err(input.error); }
      var act := StepActivation(id, NextAttempt(state, id), input.value);
      ShortCommands(id, next, act);
      r := Ok([MarkStepStatus(id, FailedRejected), ActivateSteps([act])]);
    } else {
      r := Route(flow, Mark(id, FailedRejected), [], next, RouteTargets(step.value.onReject));
    }
  }
}
