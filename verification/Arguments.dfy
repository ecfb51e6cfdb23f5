/** Request arguments. The shell resolves the other arguments of a step against the record it
    loaded before the event, not against the state the engine decided on. An argument that
    quotes the step whose completion starts its own step is therefore never resolved, and the
    completion itself is lost with it. */
module Arguments {
  import opened Wrappers
  import opened FlowTypes
  import opened Template
  import opened RunTypes
  import opened Engine
  import opened Ports
  import opened Store
  import opened Scheduler
  import opened Core
  import opened Refinement
  import opened Machine
  import opened Invariants
  import opened Outputs
  import opened Paths

  // ----- when an event is lost ----------------------------------------------------------

  /** Submitting an event that starts something leaves the store untouched exactly when the
      request of the first step it starts cannot be built from the record loaded before it. */
  lemma EventLostExactly(v: RunView, flow: Flow, r: Run, event: Event, e: Effect)
    requires Shows(v, flow, r) && r.phase == RunPhase.Running
    requires Enabled(r.state, event) && NoVerdictYet(r.state.steps) && Transition(flow, r.state, event) == Ok(e)
    requires e.activations != []
    ensures Submitted(v, event) == v <==> !ActivationBuilds(v.rec, e.activations[0])
  {
    var flushed := |BatchesFor(v, event)| + 1;
    var n := Built(v.rec, e.activations);
    FirstBuilds(v.rec, e.activations);
    hide *;
    AllSubmitted(v, event, flushed);
    var j := SubmitRefines(v, flow, r, event, e, flushed);
    if n > 0 {
      TrailLonger(r, e, j.value);
      ShownTrail(v, flow, r);
      ShownTrail(Submitted(v, event), flow, After(r, e, j.value));
    }
  }

  /** What a request holds under each key: an extra argument goes before the step's own, and a
      default of the flow comes last. */
  lemma ArgsHold(flow: Flow, step: Step, input: string, k: string)
    ensures var args, extra := RequestArgs(flow, step, input), step.with.extra;
            && (k in extra ==> k in args && args[k] == extra[k])
            && (k !in extra ==>
                  && (k == "cli" ==> k in args && args[k] == JString(step.with.cli))
                  && (k == "input" ==> k in args && args[k] == JString(input))
                  && (k == "role" ==> Given(args, k, step.with.role))
                  && (k == "output" ==> Given(args, k, step.with.output))
                  && (k == "provider" ==> Given(args, k, flow.defaults.provider))
                  && (k == "model" ==> Given(args, k, flow.defaults.model)))
    ensures k in RequestArgs(flow, step, input) && k !in step.with.extra ==>
              k == "cli" || k == "input" || k == "role" || k == "output" || k == "provider" || k == "model"
  {
    assert |"cli"| == 3 && |"input"| == 5 && |"role"| == 4 && |"output"| == 6 && |"provider"| == 8;
    assert "model"[0] == 'm' && "input"[0] == 'i';
  }

  predicate Given(args: map<string, Value>, k: string, text: Option<string>) {
    if text.Some? then k in args && args[k] == JString(text.value) else k !in args
  }

  /** The text is a string somewhere in the value. */
  ghost predicate Within(v: Value, text: string) {
    match v
    case JString(s) => s == text
    case JArray(items, _) => exists x :: x in items && Within(x, text)
    case JObject(fields, _) => exists k :: k in fields && Within(fields[k], text)
    case JOther(_) => false
  }

  lemma {:induction false} ResolvesAll(v: Value, ctx: TemplateContext)
    ensures ResolvesValue(v, ctx) <==> forall text :: Within(v, text) ==> Resolve(text, ctx).Ok?
  {
    hide Resolve;
    match v {
      case JString(s) => assert Within(v, s);
      case JArray(items, _) =>
        forall x | x in items
          ensures ResolvesValue(x, ctx) <==> forall text :: Within(x, text) ==> Resolve(text, ctx).Ok? {
          ResolvesAll(x, ctx);
        }
        forall x, text | x in items && Within(x, text) ensures Within(v, text) {}
      case JObject(fields, _) =>
        forall k | k in fields
          ensures ResolvesValue(fields[k], ctx) <==> forall text :: Within(fields[k], text) ==> Resolve(text, ctx).Ok?
        {
          ResolvesAll(fields[k], ctx);
        }
        forall k, text | k in fields && Within(fields[k], text) ensures Within(v, text) {}
      case JOther(_) =>
    }
  }

  /** Some string of the request does not resolve. */
  ghost predicate Unresolvable(args: map<string, Value>, ctx: TemplateContext) {
    exists k, text :: k in args && Within(args[k], text) && Resolve(text, ctx).Err?
  }

  lemma BuildsExactly(flow: Flow, step: Step, ctx: TemplateContext, input: string)
    ensures RequestBuilds(flow, step, ctx, input) <==> !Unresolvable(RequestArgs(flow, step, input), ctx)
  {
    var args := RequestArgs(flow, step, input);
    hide RequestArgs, Resolve, Within, ResolvesValue;
    forall k | k in args
      ensures ResolvesValue(args[k], ctx) <==> forall text :: Within(args[k], text) ==> Resolve(text, ctx).Ok? {
      ResolvesAll(args[k], ctx);
    }
  }

  /** In terms of texts: an event that starts something is lost exactly when a string of the
      first step's request does not resolve in the state before the event. */
  lemma EventLostToText(v: RunView, flow: Flow, r: Run, event: Event, e: Effect)
    requires Shows(v, flow, r) && r.phase == RunPhase.Running
    requires Enabled(r.state, event) && NoVerdictYet(r.state.steps) && Transition(flow, r.state, event) == Ok(e)
    requires e.activations != []
    ensures flow.Defined(e.activations[0].stepId)
    ensures var act := e.activations[0];
            Submitted(v, event) == v <==>
            Unresolvable(RequestArgs(flow, flow.StepOf(act.stepId).value, act.input), BuildContext(flow, r.state))
  {
    hide *;
    EventLostExactly(v, flow, r, event, e);
    EffectNextAttempts(flow, r.state, event, e);
    FirstDefined(flow, e);
    ShownState(v, flow, r);
    ShownFlow(v, flow, r);
    var act := e.activations[0];
    BuildsExactly(flow, flow.StepOf(act.stepId).value, BuildContext(flow, r.state), act.input);
    BuildsBy(v.rec, act);
  }

  lemma FirstDefined(flow: Flow, e: Effect)
    requires NextAttempts(flow, e.next.steps, e.activations) && e.activations != []
    ensures flow.Defined(e.activations[0].stepId) && flow.StepOf(e.activations[0].stepId).Some?
  {
    assert e.activations[0] in e.activations;
  }

  lemma ShownFlow(v: RunView, flow: Flow, r: Run)
    requires Shows(v, flow, r)
    ensures v.rec.definition == flow
  {
  }

  lemma BuildsBy(rec: RunRecord, act: StepActivation)
    requires rec.definition.StepOf(act.stepId).Some?
    ensures ActivationBuilds(rec, act) <==>
              RequestBuilds(rec.definition, rec.definition.StepOf(act.stepId).value,
                            BuildContext(rec.definition, RunStateOf(rec)), act.input)
  {
    hide RequestBuilds, BuildContext;
  }

  lemma FirstBuilds(rec: RunRecord, acts: seq<StepActivation>)
    requires acts != []
    ensures Built(rec, acts) > 0 <==> ActivationBuilds(rec, acts[0])
  {
    hide ActivationBuilds;
  }

  lemma AllSubmitted(v: RunView, event: Event, flushed: nat)
    requires flushed >= |BatchesFor(v, event)|
    ensures SubmittedUpTo(v, event, flushed) == Submitted(v, event)
  {
    hide BatchesFor;
    assert BatchesFor(v, event)[..|BatchesFor(v, event)|] == BatchesFor(v, event);
  }

  lemma TrailLonger(r: Run, e: Effect, j: nat)
    requires 0 < j <= |e.activations|
    ensures |After(r, e, j).trail| > |r.trail|
  {
    assert ActNotes(e.activations[..j]) != [];
  }

  lemma ShownTrail(v: RunView, flow: Flow, r: Run)
    requires Shows(v, flow, r)
    ensures Trail(v.log) == r.trail
  {
  }

  // ----- quoting an output --------------------------------------------------------------

  /** The text is one template that names the output of a step. */
  predicate Quotes(text: string, id: StepId) {
    WholeSpan(text).Some? && SplitDots(WholeSpan(text).value) == ["steps", id, "output"]
  }

  lemma QuotedOutput(text: string, id: StepId, ctx: TemplateContext)
    requires Quotes(text, id)
    ensures if id in ctx.steps && ctx.steps[id].output.Some?
            then Resolve(text, ctx) == Ok(Render(ctx.steps[id].output.value))
            else Resolve(text, ctx).Err?
  {
    hide WholeSpan, SplitDots;
  }

  /** Some argument of the step quotes the output of another. */
  ghost predicate HasQuote(step: Step, id: StepId) {
    exists k, text :: k in step.with.extra && step.with.extra[k] == JString(text) && Quotes(text, id)
  }

  /** The quoted output is in the state the engine decided on, but not in the record. */
  lemma QuoteOutOfDate(v: RunView, flow: Flow, r: Run, id: StepId, output: Value, e: Effect)
    requires Shows(v, flow, r) && OutputsFit(r.state.steps) && HasStatus(r.state, id, StepStatus.Running)
    requires Transition(flow, r.state, Event.StepCompleted(id, output)) == Ok(e) && e.activations != []
    requires flow.Defined(e.activations[0].stepId) && HasQuote(flow.StepOf(e.activations[0].stepId).value, id)
    ensures !ActivationBuilds(v.rec, e.activations[0])
    ensures forall text :: Quotes(text, id) ==> Resolve(text, BuildContext(flow, e.next)) == Ok(Render(output))
  {
    ShownState(v, flow, r);
    CompletedOutput(flow, r.state, id, output, e);
    assert v.rec.definition == flow;
    hide *;
    Unquotable(flow, flow.StepOf(e.activations[0].stepId).value, id, BuildContext(flow, r.state),
               e.activations[0].input);
    Unbuildable(v.rec, e.activations[0]);
    forall t | Quotes(t, id) ensures Resolve(t, BuildContext(flow, e.next)) == Ok(Render(output)) {
      QuotedOutput(t, id, BuildContext(flow, e.next));
    }
  }

  lemma Unquotable(flow: Flow, step: Step, id: StepId, ctx: TemplateContext, input: string)
    requires HasQuote(step, id) && id in ctx.steps && ctx.steps[id].output.None?
    ensures !RequestBuilds(flow, step, ctx, input)
  {
    hide Quotes, Resolve, RequestArgs;
    var k, text :| k in step.with.extra && step.with.extra[k] == JString(text) && Quotes(text, id);
    QuotedOutput(text, id, ctx);
    ArgsHold(flow, step, input, k);
    assert !ResolvesValue(RequestArgs(flow, step, input)[k], ctx);
  }

  lemma Unbuildable(rec: RunRecord, act: StepActivation)
    requires rec.definition.Defined(act.stepId)
    requires !RequestBuilds(rec.definition, rec.definition.StepOf(act.stepId).value,
                            BuildContext(rec.definition, RunStateOf(rec)), act.input)
    ensures !ActivationBuilds(rec, act)
  {
  }

  lemma CompletedOutput(flow: Flow, state: RunState, id: StepId, output: Value, e: Effect)
    requires OutputsFit(state.steps) && HasStatus(state, id, StepStatus.Running)
    requires Transition(flow, state, Event.StepCompleted(id, output)) == Ok(e)
    ensures var before, after := BuildContext(flow, state).steps, BuildContext(flow, e.next).steps;
            id in before && before[id].output.None? && id in after && after[id].output == Some(output)
  {
    hide ActivateTargets, AllTerminal, Phase, Unreached;
    assert flow.StepOf(id).Some?;
    assert e.next.steps[id].output == Some(output);
    ContextAt(flow, state, id);
    ContextAt(flow, e.next, id);
  }

  lemma ContextAt(flow: Flow, state: RunState, id: StepId)
    requires flow.Defined(id) && id in state.steps
    ensures id in BuildContext(flow, state).steps && BuildContext(flow, state).steps[id] == ContextOf(state.steps[id])
  {
    assert flow.StepOf(id).value.id == id;
  }

  /** In every history: when a completion would first start a step one of whose arguments
      quotes the output that just arrived, submitting it changes nothing. The step that
      reported stays Running, and so does the run. */
  lemma QuotedCompletionIsLost(runId: RunId, new_: NewRun, actions: seq<Machine.Action>, id: StepId, output: Value,
                               e: Effect)
    requires History(NewView(runId, new_), actions)
    requires var v := StoredAfter(NewView(runId, new_), actions);
             && v.rec.phase == RunPhase.Running && HasStatus(RunStateOf(v.rec), id, StepStatus.Running)
             && Transition(new_.definition, RunStateOf(v.rec), Event.StepCompleted(id, output)) == Ok(e)
    requires e.activations != [] && new_.definition.Defined(e.activations[0].stepId)
    requires HasQuote(new_.definition.StepOf(e.activations[0].stepId).value, id)
    ensures var v := StoredAfter(NewView(runId, new_), actions); Submitted(v, Event.StepCompleted(id, output)) == v
    ensures forall text :: Quotes(text, id) ==>
              Resolve(text, BuildContext(new_.definition, e.next)) == Ok(Render(output))
  {
    var flow, v0, v := new_.definition, NewView(runId, new_), StoredAfter(NewView(runId, new_), actions);
    NewShows(runId, new_);
    NewInvariant(new_);
    hide *;
    VerdictsOpen(flow, NewPlay(new_));
    var moves := Simulates(v0, flow, NewPlay(new_), actions);
    var r := Play(flow, NewPlay(new_), moves);
    PlayFits(new_, moves);
    ShownState(v, flow, r);
    ShownPhase(v, flow, r);
    RunningEnabled(r.state, id, output);
    QuoteOutOfDate(v, flow, r, id, output, e);
    EventLostExactly(v, flow, r, Event.StepCompleted(id, output), e);
  }

  lemma ShownPhase(v: RunView, flow: Flow, r: Run)
    requires Shows(v, flow, r)
    ensures v.rec.phase == r.phase
  {
  }

  lemma RunningEnabled(state: RunState, id: StepId, output: Value)
    requires HasStatus(state, id, StepStatus.Running)
    ensures Enabled(state, Event.StepCompleted(id, output))
  {
  }

  // ----- such templates exist -----------------------------------------------------------

  /** The plain template of a step's output. */
  function OutputOf(id: StepId): string {
    Reference(["steps", id, "output"])
  }

  /** It is such an argument, for every id without dots and braces, as the validator allows. */
  lemma OutputTemplateQuotes(id: StepId)
    requires Key(id)
    ensures Quotes(OutputOf(id), id)
  {
    OutputWritable(id);
    ReferenceSpan(["steps", id, "output"]);
    hide WholeSpan, SplitDots, Reference, Dotted;
  }

  lemma OutputWritable(id: StepId)
    requires Key(id)
    ensures Writable(["steps", id, "output"])
  {
    var parts := ["steps", id, "output"];
    assert parts[1..] == [id, "output"] && [id, "output"][1..] == ["output"];
    assert Dotted(["output"]) == "output" && Dotted([id, "output"]) == id + "." + "output";
    var expr := Dotted(parts);
    assert expr == "steps" + "." + (id + "." + "output");
    assert expr[0] == 's' && expr[|expr| - 1] == 't';
  }
}
