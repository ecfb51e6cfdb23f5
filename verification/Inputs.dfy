/** The text a step is started with: its template, read in the state the event leaves, from the
    moment the engine decides it to the row the store keeps. */
module Inputs {
  import opened Wrappers
  import opened FlowTypes
  import opened Template
  import opened TemplateProofs
  import opened RunTypes
  import opened Engine
  import opened Ports
  import opened Store
  import opened Scheduler
  import opened Core
  import opened Refinement
  import opened Machine
  import opened Invariants
  import opened Paths
  import Dag

  // ----- what a template reads of a state -----------------------------------------------

  /** The roots of a run: its inputs and its trigger; `env` and `run` are null. */
  lemma RootsOfState(flow: Flow, state: RunState, root: string, keys: seq<string>)
    requires Writable([root] + keys)
    ensures var expr, r := Dotted([root] + keys), Resolve(Reference([root] + keys), BuildContext(flow, state));
            && (root == "inputs" ==> Reads(state.inputs, keys, expr, r))
            && (root == "trigger" ==> Reads(state.trigger, keys, expr, r))
            && (root == "env" || root == "run" ==>
                  r == if keys == [] then Ok("null") else Err(UnresolvableReference(expr)))
  {
    RootReads(root, keys, BuildContext(flow, state));
    var r := Resolve(Reference([root] + keys), BuildContext(flow, state));
    hide Reads, Resolve, Dotted, Reference, Writable;
    if root == "env" || root == "run" { NullReads(keys, Dotted([root] + keys), r); }
  }

  lemma NullReads(keys: seq<string>, expr: string, r: Result<string, TemplateError>)
    requires Reads(JNULL, keys, expr, r)
    ensures r == if keys == [] then Ok("null") else Err(UnresolvableReference(expr))
  {
    if keys == [] {
      assert Leads([JNULL], JNULL, keys, JNULL);
      assert Reaches(JNULL, keys, JNULL);
    } else {
      forall to ensures !Reaches(JNULL, keys, to) {}
    }
  }

  /** The fields of a step with a row: the output its job reported, and the last feedback and
      comment of a person; nothing of a step without a row. */
  lemma FieldsOfState(flow: Flow, state: RunState, id: StepId, field: string, keys: seq<string>)
    requires Writable(["steps", id, field] + keys)
    ensures var parts := ["steps", id, field] + keys;
            var expr, r := Dotted(parts), Resolve(Reference(parts), BuildContext(flow, state));
            if flow.Defined(id) && id in state.steps
            then StepReads(state.steps[id], field, keys, expr, r)
            else r == Err(UnresolvableReference(expr))
  {
    hide *;
    var parts := ["steps", id, field] + keys;
    var ctx := BuildContext(flow, state);
    EntryAt(flow, state, id);
    if flow.Defined(id) && id in state.steps {
      FieldReads(id, field, keys, ctx);
      FieldOf(state.steps[id], ctx.steps[id], field, keys, Dotted(parts), Resolve(Reference(parts), ctx));
    } else {
      assert parts[0] == "steps" && parts[1] == id;
      StepsRoot();
      OtherRefused(parts, ctx);
    }
  }

  lemma StepsRoot()
    ensures "steps" != "inputs" && "steps" != "trigger" && "steps" != "env" && "steps" != "run"
  {
    assert "steps"[0] == 's';
  }

  /** What a reference to a field of a row comes to. */
  ghost predicate StepReads(row: StepRun, field: string, keys: seq<string>, expr: string,
                            r: Result<string, TemplateError>)
  {
    if field == "output" && row.output.Some? then
      if row.output.value.JString? && keys != [] then r == Err(UnstructuredOutput(expr))
      else Reads(row.output.value, keys, expr, r)
    else if field == "feedback" && row.feedback.Some? && keys == [] then r == Ok(row.feedback.value)
    else if field == "approval_comment" && row.approvalComment.Some? && keys == [] then
      r == Ok(row.approvalComment.value)
    else r == Err(UnresolvableReference(expr))
  }

  lemma EntryAt(flow: Flow, state: RunState, id: StepId)
    ensures var steps := BuildContext(flow, state).steps;
            && (id in steps <==> flow.Defined(id) && id in state.steps)
            && (id in steps ==>
                  var sc, row := steps[id], state.steps[id];
                  && sc.output == row.output && sc.run == None
                  && (sc.feedback == if row.feedback.Some? then Some(JString(row.feedback.value)) else None)
                  && (sc.approvalComment ==
                      if row.approvalComment.Some? then Some(JString(row.approvalComment.value)) else None))
  {
    if flow.Defined(id) { assert flow.StepOf(id).value.id == id; }
  }

  lemma FieldOf(row: StepRun, sc: StepContext, field: string, keys: seq<string>, expr: string,
                r: Result<string, TemplateError>)
    requires sc.output == row.output && sc.run == None
    requires sc.feedback == if row.feedback.Some? then Some(JString(row.feedback.value)) else None
    requires sc.approvalComment == if row.approvalComment.Some? then Some(JString(row.approvalComment.value)) else None
    requires field == "output" && sc.output.None? ==> r == Err(UnresolvableReference(expr))
    requires field == "output" && sc.output.Some? && sc.output.value.JString? && keys != [] ==>
               r == Err(UnstructuredOutput(expr))
    requires field == "output" && sc.output.Some? && (sc.output.value.JString? ==> keys == []) ==>
               Reads(sc.output.value, keys, expr, r)
    requires field == "feedback" ==> ReadsWhole(sc.feedback, keys, expr, r)
    requires field == "approval_comment" ==> ReadsWhole(sc.approvalComment, keys, expr, r)
    requires field == "run" && sc.run.None? ==> r == Err(UnresolvableReference(expr))
    requires field != "output" && field != "feedback" && field != "approval_comment" && field != "run" ==>
               r == Err(UnresolvableReference(expr))
    ensures StepReads(row, field, keys, expr, r)
  {
    hide Reads;
  }

  // ----- what the engine starts a step with ---------------------------------------------

  /** The event is a failure within the retries of its step. */
  predicate Retried(flow: Flow, state: RunState, event: Event) {
    event.StepFailed? && flow.Defined(event.stepId) && event.stepId in state.steps
    && state.steps[event.stepId].attempt <= flow.StepOf(event.stepId).value.retries
  }

  /** The event is a rejection of a step whose `on_reject` names that step and nothing else. */
  predicate LoopsBack(flow: Flow, event: Event) {
    event.StepRejected? && flow.Defined(event.stepId)
    && var route := flow.StepOf(event.stepId).value.onReject;
       route == Some(One(event.stepId)) || route == Some(Many([event.stepId]))
  }

  /** The input of an activation: what the template of its step comes to in the state the event
      leaves. A rejection that loops back reads the `reject_input` of the step instead or, if it
      has none, adds the feedback to the input. */
  ghost predicate StartedWith(flow: Flow, event: Event, next: RunState, act: StepActivation) {
    flow.Defined(act.stepId) &&
    var step, ctx := flow.StepOf(act.stepId).value, BuildContext(flow, next);
    if !LoopsBack(flow, event) then Resolve(step.with.input, ctx) == Ok(act.input)
    else if step.rejectInput.Some? then Resolve(step.rejectInput.value, ctx) == Ok(act.input)
    else exists text :: Resolve(step.with.input, ctx) == Ok(text)
                        && act.input == text + "\n\nFeedback: " + event.feedback
  }

  /** The input an activation is started with is settled by its step, the event and the state. */
  lemma SameInput(flow: Flow, event: Event, next: RunState, a: StepActivation, b: StepActivation)
    requires StartedWith(flow, event, next, a) && StartedWith(flow, event, next, b) && a.stepId == b.stepId
    ensures a.input == b.input
  {
    hide Resolve, BuildContext, FirstStep, LoopsBack;
  }

  lemma LoopsAsSource(flow: Flow, state: RunState, event: Event)
    requires Enabled(state, event)
    ensures LoopsBack(flow, event) <==>
              event.StepRejected? && flow.Defined(event.stepId)
              && Dag.IsSelfRejectLoop(flow.StepOf(event.stepId).value)
    ensures Reruns(flow, state, event) <==> Retried(flow, state, event) || LoopsBack(flow, event)
  {
    if (event.StepFailed? || event.StepRejected?) && flow.Defined(event.stepId) {
      var step := flow.StepOf(event.stepId).value;
      assert step.id == event.stepId;
      if Dag.IsSelfRejectLoop(step) && step.onReject.value.One? {
        assert [step.onReject.value.target][0] == [step.id][0];
      }
    }
  }

  /** A retry starts the step that failed with its next attempt, and leaves the state as it was. */
  lemma RetryStarts(flow: Flow, state: RunState, event: Event, e: Effect)
    requires Enabled(state, event) && Transition(flow, state, event) == Ok(e) && Retried(flow, state, event)
    ensures |e.activations| == 1 && e.next == state
    ensures var act, step := e.activations[0], flow.StepOf(event.stepId).value;
            && act.stepId == event.stepId && act.attempt == state.steps[event.stepId].attempt + 1
            && Resolve(step.with.input, BuildContext(flow, state)) == Ok(act.input)
  {
    hide Resolve, BuildContext, FailedState, Routed;
  }

  /** A rejection that loops back starts the rejected step with its next attempt, in a state that
      has the feedback. */
  lemma LoopStarts(flow: Flow, state: RunState, event: Event, e: Effect)
    requires Enabled(state, event) && Transition(flow, state, event) == Ok(e) && LoopsBack(flow, event)
    ensures |e.activations| == 1 && event.stepId in e.next.steps
    ensures e.next.steps[event.stepId].feedback == Some(event.feedback)
    ensures var act := e.activations[0];
            && act.stepId == event.stepId && act.attempt == state.steps[event.stepId].attempt + 1
            && StartedWith(flow, event, e.next, act)
  {
    LoopsAsSource(flow, state, event);
    hide Resolve, BuildContext, Routed, FirstStep, Dag.IsSelfRejectLoop;
    assert flow.StepOf(event.stepId).Some?;
  }

  /** Every activation of every accepted event is started with that input. */
  lemma ActivatedInputs(flow: Flow, state: RunState, event: Event, e: Effect, act: StepActivation)
    requires Enabled(state, event) && NoVerdictYet(state.steps) && Transition(flow, state, event) == Ok(e)
    requires act in e.activations
    ensures StartedWith(flow, event, e.next, act)
  {
    hide *;
    LoopsAsSource(flow, state, event);
    if Retried(flow, state, event) {
      RetryStarts(flow, state, event, e);
      RetriedPlainly(flow, state, event, e, act);
    } else if LoopsBack(flow, event) {
      LoopStarts(flow, state, event, e);
    } else {
      EffectShape(flow, state, event, e);
      RoutedActs(flow, state, event, e);
      TargetInputs(flow, e.next, BuildContext(flow, e.next), TargetsOf(flow, state, event), act);
      Plainly(flow, event, e.next, TargetsOf(flow, state, event), act);
    }
  }

  lemma RoutedActs(flow: Flow, state: RunState, event: Event, e: Effect)
    requires Activates(flow, state, event, e) && !Reruns(flow, state, event)
    ensures ActivateTargets(flow, e.next, BuildContext(flow, e.next), TargetsOf(flow, state, event))
            == Ok(e.activations)
  {
    hide ActivateTargets, BuildContext, TargetsOf;
  }

  lemma Plainly(flow: Flow, event: Event, next: RunState, targets: seq<StepId>, act: StepActivation)
    requires FromTarget(flow, next, BuildContext(flow, next), targets, act) && !LoopsBack(flow, event)
    ensures StartedWith(flow, event, next, act)
  {
    hide Resolve, BuildContext, FirstStep, LoopsBack;
  }

  lemma RetriedPlainly(flow: Flow, state: RunState, event: Event, e: Effect, act: StepActivation)
    requires Retried(flow, state, event) && e.next == state && |e.activations| == 1 && act in e.activations
    requires e.activations[0].stepId == event.stepId
    requires Resolve(flow.StepOf(event.stepId).value.with.input, BuildContext(flow, state))
             == Ok(e.activations[0].input)
    ensures StartedWith(flow, event, e.next, act)
  {
    hide Resolve, BuildContext, FirstStep;
  }

  // ----- what the rows hold -------------------------------------------------------------

  lemma {:induction false} OverlayInput(steps: Steps, acts: seq<StepActivation>, act: StepActivation)
    requires act in acts
    requires forall a :: a in acts && a.stepId == act.stepId ==> a.attempt == act.attempt && a.input == act.input
    ensures act.stepId in Overlay(steps, acts)
    ensures var row := Overlay(steps, acts)[act.stepId];
            row.attempt == act.attempt && row.inputResolved == Some(act.input) && row.status == StepStatus.Running
  {
    var n := |acts| - 1;
    if acts[n].stepId != act.stepId {
      assert act in acts[..n];
      OverlayInput(steps, acts[..n], act);
    }
  }

  /** Every step an event started has a Running row with the input it was started with. */
  lemma StartedRow(flow: Flow, r: Run, event: Event, e: Effect, j: nat, act: StepActivation)
    requires Enabled(r.state, event) && NoVerdictYet(r.state.steps) && Transition(flow, r.state, event) == Ok(e)
    requires j <= |e.activations| && act in e.activations[..j]
    ensures StartedWith(flow, event, e.next, act)
    ensures HoldsInput(After(r, e, j).state.steps, act)
  {
    hide *;
    var acts := e.activations[..j];
    SomeOf(e.activations, j);
    EffectNextAttempts(flow, r.state, event, e);
    ActivatedInputs(flow, r.state, event, e, act);
    forall a | a in acts && a.stepId == act.stepId ensures a.attempt == act.attempt && a.input == act.input {
      ActivatedInputs(flow, r.state, event, e, a);
      SameInput(flow, event, e.next, a, act);
      SameAttempt(flow, e.next.steps, e.activations, a, act);
    }
    OverlayInput(e.next.steps, acts, act);
    AfterHolds(r, e, j, act);
  }

  ghost predicate HoldsInput(steps: Steps, act: StepActivation) {
    act.stepId in steps &&
    var row := steps[act.stepId];
    row.attempt == act.attempt && row.inputResolved == Some(act.input) && row.status == StepStatus.Running
  }

  lemma SomeOf(acts: seq<StepActivation>, j: nat)
    requires j <= |acts|
    ensures forall a :: a in acts[..j] ==> a in acts
  {
  }

  lemma SameAttempt(flow: Flow, steps: Steps, acts: seq<StepActivation>, a: StepActivation, b: StepActivation)
    requires NextAttempts(flow, steps, acts) && a in acts && b in acts && a.stepId == b.stepId
    ensures a.attempt == b.attempt
  {
  }

  lemma AfterHolds(r: Run, e: Effect, j: nat, act: StepActivation)
    requires j <= |e.activations| && act.stepId in Overlay(e.next.steps, e.activations[..j])
    requires var row := Overlay(e.next.steps, e.activations[..j])[act.stepId];
             row.attempt == act.attempt && row.inputResolved == Some(act.input) && row.status == StepStatus.Running
    ensures HoldsInput(After(r, e, j).state.steps, act)
  {
    hide Overlay;
  }

  /** In the store: once an event is submitted, stopped after any number of batches, each step
      whose activation got through has a latest attempt with the input it was started with. */
  lemma SubmittedInputs(v: RunView, flow: Flow, r: Run, event: Event, e: Effect, flushed: nat) returns (j: Option<nat>)
    requires Shows(v, flow, r) && r.phase == RunPhase.Running
    requires Enabled(r.state, event) && NoVerdictYet(r.state.steps) && Transition(flow, r.state, event) == Ok(e)
    requires e.activations != []
    ensures j == (var n := Built(v.rec, e.activations);
                  if flushed == 0 || n == 0 then None else Some(if flushed < n then flushed else n))
    ensures j.Some? ==>
              forall act :: act in e.activations[..j.value] ==>
                && StartedWith(flow, event, e.next, act)
                && HoldsInput(RunStateOf(SubmittedUpTo(v, event, flushed).rec).steps, act)
  {
    hide *;
    j := SubmitRefines(v, flow, r, event, e, flushed);
    if j.Some? {
      ShownState(SubmittedUpTo(v, event, flushed), flow, After(r, e, j.value));
      forall act | act in e.activations[..j.value]
        ensures StartedWith(flow, event, e.next, act)
                && HoldsInput(RunStateOf(SubmittedUpTo(v, event, flushed).rec).steps, act)
      {
        StartedRow(flow, r, event, e, j.value, act);
      }
    }
  }

  // ----- over whole runs ----------------------------------------------------------------

  /** The `k`-th move of a play started the row's attempt, with the input the row holds. */
  ghost predicate GivenAt(flow: Flow, start: Run, moves: seq<Move>, k: nat, row: StepRun) {
    && k < |moves| && moves[k].Did?
    && var before := Play(flow, start, moves[..k]).state;
       && Enabled(before, moves[k].event) && Transition(flow, before, moves[k].event).Ok?
       && var e := Transition(flow, before, moves[k].event).value;
          exists act :: act in e.activations && act.stepId == row.stepId && act.attempt == row.attempt
                        && row.inputResolved == Some(act.input) && StartedWith(flow, moves[k].event, e.next, act)
  }

  lemma GivenEarlier(flow: Flow, start: Run, moves: seq<Move>, k: nat, row: StepRun)
    requires moves != [] && GivenAt(flow, start, moves[..|moves| - 1], k, row)
    ensures GivenAt(flow, start, moves, k, row)
  {
    var n := |moves| - 1;
    assert moves[..n][..k] == moves[..k] && moves[..n][k] == moves[k];
    hide Play, Enabled, Transition, StartedWith;
  }

  lemma GivenSame(flow: Flow, start: Run, moves: seq<Move>, k: nat, row: StepRun, other: StepRun)
    requires GivenAt(flow, start, moves, k, row)
    requires other.stepId == row.stepId && other.attempt == row.attempt && other.inputResolved == row.inputResolved
    ensures GivenAt(flow, start, moves, k, other)
  {
    hide Play, Enabled, Transition, StartedWith;
  }

  lemma GivenNow(flow: Flow, start: Run, moves: seq<Move>, act: StepActivation, row: StepRun)
    requires moves != [] && moves[|moves| - 1].Did?
    requires var n := |moves| - 1; var before := Play(flow, start, moves[..n]).state;
             && Enabled(before, moves[n].event) && Transition(flow, before, moves[n].event).Ok?
             && act in Transition(flow, before, moves[n].event).value.activations
             && StartedWith(flow, moves[n].event, Transition(flow, before, moves[n].event).value.next, act)
    requires act.stepId == row.stepId && act.attempt == row.attempt && row.inputResolved == Some(act.input)
    ensures GivenAt(flow, start, moves, |moves| - 1, row)
  {
    hide Play, Enabled, Transition, StartedWith;
  }

  /** A row that an event does not start keeps its attempt and its input. */
  lemma KeepsInput(before: Steps, event: Event, e: Effect, j: nat, after: Steps, id: StepId)
    requires j <= |e.activations| && RowAfter(before, event, e, j, after, id)
    requires id in after && id !in ActIds(e.activations[..j])
    ensures id in before
    ensures after[id].stepId == before[id].stepId && after[id].attempt == before[id].attempt
    ensures after[id].inputResolved == before[id].inputResolved
  {
  }

  lemma ActOf(acts: seq<StepActivation>, id: StepId) returns (act: StepActivation)
    requires id in ActIds(acts)
    ensures act in acts && act.stepId == id
  {
    act :| act in acts && act.stepId == id;
  }

  /** Every row of every reachable state was given its input by the move that started its current
      attempt: the template of the step, read in the state that move left. */
  lemma {:induction false} EveryRowGiven(new_: NewRun, moves: seq<Move>, id: StepId) returns (k: nat)
    requires Playable(new_.definition, NewPlay(new_), moves)
    requires id in Play(new_.definition, NewPlay(new_), moves).state.steps
    ensures GivenAt(new_.definition, NewPlay(new_), moves, k,
                    Play(new_.definition, NewPlay(new_), moves).state.steps[id])
    decreases |moves|
  {
    hide *;
    var flow, start := new_.definition, NewPlay(new_);
    NoMoves(new_);
    LastMove(flow, start, moves);
    var n := |moves| - 1;
    var r, m := Play(flow, start, moves[..n]), moves[n];
    PlayInvariant(new_, moves[..n]);
    VerdictsOpen(flow, r);
    if m.Did? {
      Happened(flow, r, m);
      var e := Transition(flow, r.state, m.event).value;
      AfterRows(flow, r, m.event, e, m.j);
      var row := After(r, e, m.j).state.steps[id];
      if id in ActIds(e.activations[..m.j]) {
        var act := ActOf(e.activations[..m.j], id);
        SomeOf(e.activations, m.j);
        StartedRow(flow, r, m.event, e, m.j, act);
        RowIds(flow, r, m.event, e, m.j, id);
        HeldRow(After(r, e, m.j).state.steps, act);
        GivenNow(flow, start, moves, act, row);
        return n;
      }
      KeepsInput(r.state.steps, m.event, e, m.j, After(r, e, m.j).state.steps, id);
      k := EveryRowGiven(new_, moves[..n], id);
      GivenEarlier(flow, start, moves, k, r.state.steps[id]);
      GivenSame(flow, start, moves, k, r.state.steps[id], row);
    } else {
      LoggedMove(flow, r, m);
      k := EveryRowGiven(new_, moves[..n], id);
      GivenEarlier(flow, start, moves, k, r.state.steps[id]);
    }
  }

  lemma NoMoves(new_: NewRun)
    ensures Play(new_.definition, NewPlay(new_), []).state.steps == map[]
  {
  }

  lemma LastMove(flow: Flow, start: Run, moves: seq<Move>)
    requires Playable(flow, start, moves)
    ensures moves != [] ==>
              var n := |moves| - 1;
              && Playable(flow, start, moves[..n]) && CanMove(flow, Play(flow, start, moves[..n]), moves[n])
              && Play(flow, start, moves) == Moved(flow, Play(flow, start, moves[..n]), moves[n])
  {
    hide CanMove, Moved;
  }

  lemma Happened(flow: Flow, r: Run, m: Move)
    requires CanMove(flow, r, m) && m.Did?
    ensures r.phase == RunPhase.Running && Enabled(r.state, m.event) && Transition(flow, r.state, m.event).Ok?
    ensures m.j <= |Transition(flow, r.state, m.event).value.activations|
    ensures Moved(flow, r, m) == After(r, Transition(flow, r.state, m.event).value, m.j)
  {
    hide Enabled, Transition, After;
  }

  lemma LoggedMove(flow: Flow, r: Run, m: Move)
    requires CanMove(flow, r, m) && m.Logged?
    ensures Moved(flow, r, m).state == r.state
  {
  }

  lemma RowIds(flow: Flow, r: Run, event: Event, e: Effect, j: nat, id: StepId)
    requires j <= |e.activations| && id in ActIds(e.activations[..j])
    requires RowAfter(r.state.steps, event, e, j, After(r, e, j).state.steps, id)
    ensures id in After(r, e, j).state.steps && After(r, e, j).state.steps[id].stepId == id
  {
    hide After;
  }

  lemma HeldRow(steps: Steps, act: StepActivation)
    requires HoldsInput(steps, act)
    ensures act.stepId in steps
    ensures steps[act.stepId].attempt == act.attempt && steps[act.stepId].inputResolved == Some(act.input)
  {
  }

  // ----- what does not change -----------------------------------------------------------

  lemma {:induction false} RootsStay(new_: NewRun, moves: seq<Move>)
    requires Playable(new_.definition, NewPlay(new_), moves)
    ensures Play(new_.definition, NewPlay(new_), moves).state.inputs == new_.inputs
    ensures Play(new_.definition, NewPlay(new_), moves).state.trigger == new_.trigger
    decreases |moves|
  {
    if moves != [] {
      hide CanMove, Transition, Overlay, NewPlay;
      RootsStay(new_, moves[..|moves| - 1]);
    } else {
      assert Play(new_.definition, NewPlay(new_), moves) == NewPlay(new_);
    }
  }

  lemma NoStepsLeft(flow: Flow, state: RunState)
    ensures Restrict(BuildContext(flow, state), {}) == TemplateContext(state.inputs, state.trigger, JNULL, map[], JNULL)
  {
  }

  /** A text that mentions no step resolves to the same over a whole run: a step with such an
      input is started with one and the same text on every attempt. */
  lemma StepFreeInput(new_: NewRun, moves: seq<Move>, text: string)
    requires Playable(new_.definition, NewPlay(new_), moves) && StepRefs(text) == []
    ensures var flow := new_.definition;
            Resolve(text, BuildContext(flow, Play(flow, NewPlay(new_), moves).state))
            == Resolve(text, TemplateContext(new_.inputs, new_.trigger, JNULL, map[], JNULL))
  {
    hide *;
    var flow := new_.definition;
    var state := Play(flow, NewPlay(new_), moves).state;
    RootsStay(new_, moves);
    ScannerSeesEveryRead(text, BuildContext(flow, state), {});
    NoStepsLeft(flow, state);
  }

  // ----- in the store -------------------------------------------------------------------

  /** Every latest attempt of every stored run was given its input so, wherever the history stops. */
  lemma StoredInputs(runId: RunId, new_: NewRun, actions: seq<Machine.Action>) returns (moves: seq<Move>)
    requires History(NewView(runId, new_), actions)
    ensures Playable(new_.definition, NewPlay(new_), moves)
    ensures var steps := RunStateOf(StoredAfter(NewView(runId, new_), actions).rec).steps;
            forall id :: id in steps ==> exists k: nat :: GivenAt(new_.definition, NewPlay(new_), moves, k, steps[id])
  {
    hide *;
    var flow, v := new_.definition, NewView(runId, new_);
    NewShows(runId, new_);
    NewInvariant(new_);
    VerdictsOpen(flow, NewPlay(new_));
    moves := Simulates(v, flow, NewPlay(new_), actions);
    ShownState(StoredAfter(v, actions), flow, Play(flow, NewPlay(new_), moves));
    var steps := RunStateOf(StoredAfter(v, actions).rec).steps;
    forall id | id in steps ensures exists k: nat :: GivenAt(flow, NewPlay(new_), moves, k, steps[id]) {
      var k := EveryRowGiven(new_, moves, id);
      assert GivenAt(flow, NewPlay(new_), moves, k, steps[id]);
    }
  }
}
