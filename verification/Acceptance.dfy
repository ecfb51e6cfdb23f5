/** What the runs of an accepted flow can rely on, rule by rule. */
module Acceptance {
  import opened Wrappers
  import opened FlowTypes
  import opened Template
  import opened TemplateProofs
  import opened RunTypes
  import opened Engine
  import opened Store
  import opened Core
  import opened Machine
  import opened Invariants
  import opened Validate
  import opened Paths
  import opened Inputs
  import Confluence
  import Dag
  import Legality

  lemma RulesOf(flow: Flow, id: StepId)
    requires Accepted(flow) && flow.Defined(id)
    ensures flow.StepOf(id).value in flow.steps && StepRules(flow, flow.StepOf(id).value)
  {
    hide UniqueIds, Dag.ForwardAcyclic, Dag.EntrySteps, RefsGuaranteed, StepRules, FirstStep;
  }

  // ----- reject_input -------------------------------------------------------------------

  /** A `reject_input` is what the step starts with after every rejection that the engine accepts:
      the step starts again, and no other one does. */
  lemma RejectInputUsed(flow: Flow, state: RunState, event: Event, e: Effect, text: string)
    requires Accepted(flow) && event.StepRejected? && Enabled(state, event) && Transition(flow, state, event) == Ok(e)
    requires flow.Defined(event.stepId) && flow.StepOf(event.stepId).value.rejectInput == Some(text)
    ensures |e.activations| == 1 && event.stepId in e.next.steps
    ensures e.next.steps[event.stepId].feedback == Some(event.feedback)
    ensures var act := e.activations[0];
            && act.stepId == event.stepId && act.attempt == state.steps[event.stepId].attempt + 1
            && Resolve(text, BuildContext(flow, e.next)) == Ok(act.input)
  {
    hide *;
    RulesOf(flow, event.stepId);
    RejectInputOf(flow, event.stepId);
    LoopsAsSource(flow, state, event);
    LoopStarts(flow, state, event, e);
    StartedByReject(flow, event, e.next, e.activations[0], text);
  }

  lemma RejectInputOf(flow: Flow, id: StepId)
    requires flow.Defined(id) && StepRules(flow, flow.StepOf(id).value) && flow.StepOf(id).value.rejectInput.Some?
    ensures Dag.IsSelfRejectLoop(flow.StepOf(id).value)
  {
    hide Dag.IsSelfRejectLoop, FirstStep, Dag.Sources;
  }

  lemma StartedByReject(flow: Flow, event: Event, next: RunState, act: StepActivation, text: string)
    requires StartedWith(flow, event, next, act) && LoopsBack(flow, event) && act.stepId == event.stepId
    requires flow.Defined(event.stepId) && flow.StepOf(event.stepId).value.rejectInput == Some(text)
    ensures Resolve(text, BuildContext(flow, next)) == Ok(act.input)
  {
    hide Resolve, BuildContext, FirstStep;
  }

  /** The parts of the reference to the feedback on a step. */
  function FeedbackPath(id: StepId): seq<string> {
    ["steps", id, "feedback"]
  }

  /** Every reference among the segments is to the feedback on the step. */
  predicate OnlyFeedback(id: StepId, segs: seq<Segment>) {
    forall seg | seg in segs && seg.Ref? :: Trim(seg.expr) == Dotted(FeedbackPath(id))
  }

  /** The segments with a text in place of each reference. */
  function Filled(segs: seq<Segment>, text: string): string {
    if segs == [] then "" else (if segs[0].Ref? then text else segs[0].text) + Filled(segs[1..], text)
  }

  lemma {:induction false} FilledMeaning(id: StepId, segs: seq<Segment>, text: string, ctx: TemplateContext)
    requires OnlyFeedback(id, segs) && ResolvePath(Dotted(FeedbackPath(id)), ctx) == Ok(JString(text))
    ensures Meaning(segs, ctx) == Ok(Filled(segs, text))
    decreases |segs|
  {
    hide ResolvePath, Trim, Dotted;
    if segs != [] {
      assert segs[0] in segs && forall x :: x in segs[1..] ==> x in segs;
      FilledMeaning(id, segs[1..], text, ctx);
    }
  }

  lemma FeedbackRead(flow: Flow, state: RunState, id: StepId, text: string)
    requires Key(id) && flow.Defined(id) && id in state.steps && state.steps[id].feedback == Some(text)
    ensures ResolvePath(Dotted(FeedbackPath(id)), BuildContext(flow, state)) == Ok(JString(text))
  {
    FieldNames();
    SplitDotted(FeedbackPath(id));
    EntryAt(flow, state, id);
    hide BuildContext, SplitDots, Dotted;
    assert FeedbackPath(id)[3..] == [];
  }

  /** A `reject_input` of an accepted flow that quotes nothing but the feedback on its own step
      always resolves: the rejection is accepted, and the step starts again with the feedback in
      place of each quote. */
  lemma FeedbackArrives(flow: Flow, state: RunState, event: Event, segs: seq<Segment>)
    requires Accepted(flow) && event.StepRejected? && Enabled(state, event) && flow.Defined(event.stepId)
    requires Alternating(segs) && OnlyFeedback(event.stepId, segs)
    requires flow.StepOf(event.stepId).value.rejectInput == Some(Written(segs))
    requires Lone(segs).Some? ==> Lone(segs) == Some(segs[1].expr)
    ensures Transition(flow, state, event).Ok?
    ensures var e := Transition(flow, state, event).value;
            && |e.activations| == 1 && e.activations[0].stepId == event.stepId
            && e.activations[0].input == if Lone(segs).Some? then event.feedback else Filled(segs, event.feedback)
  {
    hide *;
    var id, next := event.stepId, Considered(state, event);
    RulesOf(flow, id);
    PlainId(flow, id);
    RejectInputOf(flow, id);
    RejectedHas(state, event);
    FeedbackRead(flow, next, id, event.feedback);
    QuotesResolve(id, segs, event.feedback, BuildContext(flow, next));
    LoopsWith(flow, state, event, Written(segs), if Lone(segs).Some? then event.feedback
              else Filled(segs, event.feedback));
  }

  /** A text that quotes nothing but the feedback has the feedback in place of each quote. */
  lemma QuotesResolve(id: StepId, segs: seq<Segment>, text: string, ctx: TemplateContext)
    requires Alternating(segs) && OnlyFeedback(id, segs) && (Lone(segs).Some? ==> Lone(segs) == Some(segs[1].expr))
    requires ResolvePath(Dotted(FeedbackPath(id)), ctx) == Ok(JString(text))
    ensures Resolve(Written(segs), ctx) == Ok(if Lone(segs).Some? then text else Filled(segs, text))
  {
    hide *;
    ResolveWritten(segs, ctx);
    FilledMeaning(id, segs, text, ctx);
    if Lone(segs).Some? {
      LoneOnly(id, segs);
      FilledMeaning(id, [Lit(""), segs[1]], text, ctx);
      FilledLone(segs[1], text);
    }
  }

  lemma RejectedHas(state: RunState, event: Event)
    requires event.StepRejected? && Enabled(state, event)
    ensures event.stepId in Considered(state, event).steps
    ensures Considered(state, event).steps[event.stepId].feedback == Some(event.feedback)
  {
  }

  lemma LoneOnly(id: StepId, segs: seq<Segment>)
    requires Alternating(segs) && OnlyFeedback(id, segs) && Lone(segs).Some? && Lone(segs) == Some(segs[1].expr)
    ensures |segs| >= 2 && segs[1].Ref? && Ref(segs[1].expr) == segs[1] && OnlyFeedback(id, [Lit(""), segs[1]])
  {
    hide Trim, Dotted, Clear;
    assert segs[1] in segs;
  }

  lemma FilledLone(seg: Segment, text: string)
    requires seg.Ref?
    ensures Filled([Lit(""), seg], text) == text
  {
    assert [Lit(""), seg][1..] == [seg] && [seg][1..] == [];
    assert Filled([seg], text) == text + "" == text;
  }

  lemma LoopsWith(flow: Flow, state: RunState, event: Event, template: string, text: string)
    requires event.StepRejected? && flow.Defined(event.stepId)
    requires Dag.IsSelfRejectLoop(flow.StepOf(event.stepId).value)
    requires flow.StepOf(event.stepId).value.rejectInput == Some(template)
    requires Resolve(template, BuildContext(flow, Considered(state, event))) == Ok(text)
    ensures Transition(flow, state, event).Ok?
    ensures var e := Transition(flow, state, event).value;
            |e.activations| == 1 && e.activations[0].stepId == event.stepId && e.activations[0].input == text
  {
    hide Resolve, BuildContext, Dag.IsSelfRejectLoop, FirstStep, RejectedState, Routed;
  }

  // ----- verdicts -----------------------------------------------------------------------

  /** In every reachable state of an accepted flow, a step that waits for approval says where
      either verdict leads, and a step no person decides on says nothing of verdicts. */
  lemma VerdictsRouted(new_: NewRun, moves: seq<Move>, id: StepId)
    requires Accepted(new_.definition) && Playable(new_.definition, NewPlay(new_), moves)
    requires id in Play(new_.definition, NewPlay(new_), moves).state.steps
    ensures new_.definition.Defined(id)
    ensures var step, row := new_.definition.StepOf(id).value,
                             Play(new_.definition, NewPlay(new_), moves).state.steps[id];
            && (row.status.WaitingApproval? ==> step.onApprove.Some? && step.onReject.Some?)
            && (step.onApprove.Some? || step.onReject.Some? ==> step.humanLoop)
  {
    hide *;
    PlayInvariant(new_, moves);
    RowOf(new_.definition, Play(new_.definition, NewPlay(new_), moves), id);
    RulesOf(new_.definition, id);
    PairedRoutes(new_.definition, id);
  }

  lemma RowOf(flow: Flow, r: Run, id: StepId)
    requires Invariant(flow, r) && id in r.state.steps
    ensures flow.Defined(id)
    ensures r.state.steps[id].status.WaitingApproval? ==> flow.StepOf(id).value.humanLoop
  {
    hide NoVerdictYet, FailuresSpent, PhaseTracks, LogAgrees, EndsOnce, FirstStep;
  }

  lemma PairedRoutes(flow: Flow, id: StepId)
    requires flow.Defined(id) && StepRules(flow, flow.StepOf(id).value)
    ensures var step := flow.StepOf(id).value;
            && (step.humanLoop ==> step.onApprove.Some? && step.onReject.Some?)
            && (!step.humanLoop ==> step.onApprove.None? && step.onReject.None?)
  {
    hide Dag.Sources, Dag.IsSelfRejectLoop, FirstStep;
  }

  // ----- refusals -----------------------------------------------------------------------

  /** A text of a step that does not resolve in the state. */
  ghost predicate Stuck(flow: Flow, state: RunState, s: Step, text: string) {
    s in flow.steps && (text == s.with.input || s.rejectInput == Some(text))
    && Resolve(text, BuildContext(flow, state)).Err?
  }

  /** An accepted flow names no step that is not there: where the engine refuses an event, the
      input of some step does not resolve, in the state before the event or in the one after. */
  lemma RefusedForText(flow: Flow, state: RunState, event: Event)
    requires Accepted(flow) && Enabled(state, event) && (forall id :: id in state.steps ==> flow.Defined(id))
    requires Transition(flow, state, event).Err?
    ensures exists s, text :: Stuck(flow, state, s, text) || Stuck(flow, Considered(state, event), s, text)
  {
    hide *;
    if StepEvent(event) {
      StepRefused(flow, state, event);
    } else {
      OnlyStart(flow, state, event);
      Confluence.RefusedTargets(flow, state, BuildContext(flow, state), Dag.EntrySteps(flow));
      var t :| t in Dag.EntrySteps(flow) && Confluence.Refuses(flow, state, BuildContext(flow, state), t);
      Dag.EntryHasNoForwardSource(flow, t);
      StuckTarget(flow, state, t);
    }
  }

  lemma OnlyStart(flow: Flow, state: RunState, event: Event)
    requires !StepEvent(event) && Transition(flow, state, event).Err?
    ensures ActivateTargets(flow, state, BuildContext(flow, state), Dag.EntrySteps(flow)).Err?
  {
    hide ActivateTargets, BuildContext, Dag.EntrySteps;
  }

  lemma StepRefused(flow: Flow, state: RunState, event: Event)
    requires Accepted(flow) && Enabled(state, event) && (forall id :: id in state.steps ==> flow.Defined(id))
    requires StepEvent(event) && Transition(flow, state, event).Err?
    ensures exists s, text :: Stuck(flow, state, s, text) || Stuck(flow, Considered(state, event), s, text)
  {
    hide *;
    Refused(flow, state, event);
    Legality.IllegalRefusedExactly(flow, state, event);
    HasRow(state, event);
    if Reruns(flow, state, event) {
      StuckRerun(flow, state, event);
    } else {
      var next := Considered(state, event);
      var t :| t in TargetsOf(flow, state, event) && Confluence.Refuses(flow, next, BuildContext(flow, next), t);
      Routes(flow, state, event, t);
      RulesOf(flow, event.stepId);
      TargetThere(flow, event.stepId, t);
      StuckTarget(flow, next, t);
    }
  }

  lemma Refused(flow: Flow, state: RunState, event: Event)
    requires Transition(flow, state, event).Err?
    ensures Decide(flow, state, event).Err?
  {
    hide Transition, CommandsOf;
  }

  lemma HasRow(state: RunState, event: Event)
    requires StepEvent(event) && Enabled(state, event)
    ensures event.StepCompleted? || event.StepFailed? || event.StepApproved? || event.StepRejected?
    ensures event.stepId in state.steps
  {
  }

  lemma Routes(flow: Flow, state: RunState, event: Event, t: StepId)
    requires StepEvent(event) && flow.Defined(event.stepId) && t in TargetsOf(flow, state, event)
    ensures t in Dag.AllRoutes(flow.StepOf(event.stepId).value)
  {
    hide FirstStep, RouteTargets;
  }

  lemma TargetThere(flow: Flow, id: StepId, t: StepId)
    requires flow.Defined(id) && StepRules(flow, flow.StepOf(id).value) && t in Dag.AllRoutes(flow.StepOf(id).value)
    ensures t == DONE || flow.Defined(t)
  {
    hide Dag.AllRoutes, Dag.Sources, Dag.IsSelfRejectLoop, FirstStep;
  }

  lemma StuckTarget(flow: Flow, state: RunState, t: StepId)
    requires Confluence.Refuses(flow, state, BuildContext(flow, state), t) && (t == DONE || flow.Defined(t))
    ensures exists s, text :: Stuck(flow, state, s, text)
  {
    hide NeedsSatisfied, BuildContext, Resolve;
    var s := flow.StepOf(t).value;
    assert Stuck(flow, state, s, s.with.input);
  }

  lemma StuckRerun(flow: Flow, state: RunState, event: Event)
    requires Reruns(flow, state, event) && Legality.RerunInput(flow, state, event).Err?
    ensures exists s, text :: Stuck(flow, state, s, text) || Stuck(flow, Considered(state, event), s, text)
  {
    hide BuildContext, Resolve, Considered, Dag.IsSelfRejectLoop;
    var s := flow.StepOf(event.stepId).value;
    var text := if event.StepRejected? && s.rejectInput.Some? then s.rejectInput.value else s.with.input;
    assert Stuck(flow, state, s, text) || Stuck(flow, Considered(state, event), s, text);
  }

  // ----- ids ----------------------------------------------------------------------------

  /** The ids of an accepted flow can be written in templates: a reference to a field of a step
      that has a row reads that field, and no blank, dot or brace gets in the way. */
  lemma IdsWritable(flow: Flow, state: RunState, id: StepId)
    requires Accepted(flow) && flow.Defined(id) && id in state.steps
    ensures forall field :: field == "output" || field == "feedback" || field == "approval_comment" ==>
              StepReads(state.steps[id], field, [], Dotted(["steps", id, field]),
                        Resolve(Reference(["steps", id, field]), BuildContext(flow, state)))
  {
    hide *;
    RulesOf(flow, id);
    PlainId(flow, id);
    FieldNames();
    forall field | field == "output" || field == "feedback" || field == "approval_comment"
      ensures StepReads(state.steps[id], field, [], Dotted(["steps", id, field]),
                        Resolve(Reference(["steps", id, field]), BuildContext(flow, state)))
    {
      FieldWritable(id, field);
      assert ["steps", id, field] + [] == ["steps", id, field];
      FieldsOfState(flow, state, id, field, []);
    }
  }

  lemma PlainId(flow: Flow, id: StepId)
    requires flow.Defined(id) && StepRules(flow, flow.StepOf(id).value)
    ensures id != "" && Key(id)
  {
    hide Dag.AllRoutes, Dag.Sources, Dag.IsSelfRejectLoop, FirstStep;
  }

  lemma FieldNames()
    ensures Key("output") && Key("feedback") && Key("approval_comment")
    ensures |"output"| == 6 && |"feedback"| == 8 && |"approval_comment"| == 16
    ensures "output"[5] == 't' && "feedback"[7] == 'k' && "approval_comment"[15] == 't'
    ensures !IsWhitespace('t') && !IsWhitespace('k')
  {
    hide IsWhitespace;
    NoBlanks();
  }

  lemma NoBlanks()
    ensures !IsWhitespace('t') && !IsWhitespace('k')
  {
  }

  lemma FieldWritable(id: StepId, field: string)
    requires Key(id) && Key(field) && field != "" && !IsWhitespace(field[|field| - 1])
    ensures Writable(["steps", id, field])
  {
    var parts := ["steps", id, field];
    assert parts[1..] == [id, field] && [id, field][1..] == [field];
    assert Dotted([field]) == field && Dotted([id, field]) == id + "." + field;
    var expr := Dotted(parts);
    assert expr == "steps" + "." + (id + "." + field);
    assert expr[0] == 's' && expr[|expr| - 1] == field[|field| - 1];
  }
}
