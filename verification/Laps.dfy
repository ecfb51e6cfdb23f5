/** Runs that come back. Of an attempt number the engine only asks, at a failure, whether a
    retry is left, and of the text a step was started with nothing at all. So a run that comes
    back to a state that is otherwise the same, without a retry on the way, can go round again,
    as often as anybody likes: whatever routes the round follows, failure routes included. */
module Laps {
  import opened Wrappers
  import opened FlowTypes
  import opened Template
  import opened RunTypes
  import opened Engine
  import opened Store
  import opened Scheduler
  import opened Core
  import opened Machine
  import opened Termination
  import Dag

  // ----- alike but for attempts ---------------------------------------------------------

  function Essence(row: StepRun): StepRun {
    row.(attempt := 0, inputResolved := None)
  }

  predicate AlikeAt(a: Steps, b: Steps, id: StepId) {
    (id in a <==> id in b) && (id in a ==> Essence(a[id]) == Essence(b[id]) && a[id].attempt <= b[id].attempt)
  }

  ghost predicate AlikeSteps(a: Steps, b: Steps) {
    forall id :: AlikeAt(a, b, id)
  }

  ghost predicate Alike(a: RunState, b: RunState) {
    a.cancelled == b.cancelled && a.inputs == b.inputs && a.trigger == b.trigger && AlikeSteps(a.steps, b.steps)
  }

  /** The second run is where the first is, on attempts no lower. */
  ghost predicate AlikeRuns(r: Run, s: Run) {
    r.phase == s.phase && Alike(r.state, s.state)
  }

  ghost predicate AlikeActs(x: seq<StepActivation>, y: seq<StepActivation>) {
    |x| == |y| && forall i :: 0 <= i < |x| ==> x[i].stepId == y[i].stepId && x[i].attempt <= y[i].attempt
  }

  ghost predicate AlikeActivations(r: Result<seq<StepActivation>, EngineError>,
                                   s: Result<seq<StepActivation>, EngineError>) {
    (r.Ok? <==> s.Ok?) && (r.Ok? ==> AlikeActs(r.value, s.value))
  }

  ghost predicate AlikeEffects(r: Result<Effect, EngineError>, s: Result<Effect, EngineError>) {
    && (r.Ok? <==> s.Ok?)
    && (r.Ok? ==>
          && r.value.mark == s.value.mark && r.value.cancels == s.value.cancels
          && r.value.skips == s.value.skips && r.value.finish == s.value.finish
          && Alike(r.value.next, s.value.next) && AlikeActs(r.value.activations, s.value.activations))
  }

  lemma AlikeRunsChain(r: Run, s: Run, t: Run)
    requires AlikeRuns(r, s) && AlikeRuns(s, t)
    ensures AlikeRuns(r, t)
  {
    hide Essence;
    forall id ensures AlikeAt(r.state.steps, t.state.steps, id) {
      assert AlikeAt(r.state.steps, s.state.steps, id) && AlikeAt(s.state.steps, t.state.steps, id);
    }
  }

  // ----- what the engine makes of alike states ------------------------------------------

  lemma SameContext(flow: Flow, a: RunState, b: RunState)
    requires Alike(a, b)
    ensures BuildContext(flow, a) == BuildContext(flow, b)
  {
    forall id ensures (id in a.steps <==> id in b.steps)
                      && (id in a.steps ==> ContextOf(a.steps[id]) == ContextOf(b.steps[id])) {
      assert AlikeAt(a.steps, b.steps, id);
      if id in a.steps { SameRowContext(a.steps[id], b.steps[id]); }
    }
    hide ContextOf, AlikeAt;
    assert BuildContext(flow, a).steps == BuildContext(flow, b).steps;
  }

  lemma SameRowContext(x: StepRun, y: StepRun)
    requires Essence(x) == Essence(y)
    ensures ContextOf(x) == ContextOf(y) && x.status == y.status
  {
    assert Essence(x).output == x.output && Essence(y).output == y.output && Essence(x).feedback == x.feedback;
  }

  lemma SameStatus(a: RunState, b: RunState)
    requires Alike(a, b)
    ensures forall id ::
              (id in a.steps <==> id in b.steps) && (id in a.steps ==> a.steps[id].status == b.steps[id].status)
  {
    forall id ensures (id in a.steps <==> id in b.steps)
        && (id in a.steps ==> a.steps[id].status == b.steps[id].status) {
      assert AlikeAt(a.steps, b.steps, id);
      if id in a.steps { SameRowContext(a.steps[id], b.steps[id]); }
    }
  }

  lemma SamePhase(a: RunState, b: RunState)
    requires Alike(a, b)
    ensures AllTerminal(a) == AllTerminal(b) && Phase(a) == Phase(b)
  {
    SameStatus(a, b);
    hide Alike;
    assert forall status :: SomeStatus(a, status) == SomeStatus(b, status);
  }

  lemma SameActive(a: RunState, b: RunState, excluding: StepId)
    requires Alike(a, b)
    ensures ActiveExcluding(a, excluding) == ActiveExcluding(b, excluding)
  {
    SameStatus(a, b);
    hide Alike;
    assert (set id | id in a.steps && a.steps[id].status.IsActive() && id != excluding)
        == (set id | id in b.steps && b.steps[id].status.IsActive() && id != excluding);
  }

  lemma {:induction false} SameUnreached(steps: seq<Step>, a: RunState, b: RunState)
    requires a.steps.Keys == b.steps.Keys
    ensures Unreached(steps, a) == Unreached(steps, b)
  {
    if steps != [] { SameUnreached(steps[..|steps| - 1], a, b); }
  }

  lemma SameKeys(a: RunState, b: RunState)
    requires Alike(a, b)
    ensures a.steps.Keys == b.steps.Keys
  {
    forall id ensures id in a.steps <==> id in b.steps { assert AlikeAt(a.steps, b.steps, id); }
  }

  lemma {:induction false} ActivationsAlike(flow: Flow, a: RunState, b: RunState, ctx: TemplateContext,
                                            targets: seq<StepId>)
    requires Alike(a, b)
    ensures AlikeActivations(ActivateTargets(flow, a, ctx, targets), ActivateTargets(flow, b, ctx, targets))
  {
    if targets != [] {
      OneAlike(flow, a, b, ctx, targets[0]);
      ActivationsAlike(flow, a, b, ctx, targets[1..]);
      JoinedAlike(ActivateOne(flow, a, ctx, targets[0]), ActivateOne(flow, b, ctx, targets[0]),
                  ActivateTargets(flow, a, ctx, targets[1..]), ActivateTargets(flow, b, ctx, targets[1..]));
      hide ActivateOne, Alike, AlikeActs, Joined;
    }
  }

  lemma JoinedAlike(x: Result<seq<StepActivation>, EngineError>, y: Result<seq<StepActivation>, EngineError>,
                    r: Result<seq<StepActivation>, EngineError>, s: Result<seq<StepActivation>, EngineError>)
    requires AlikeActivations(x, y) && AlikeActivations(r, s)
    ensures x.Ok? ==> AlikeActivations(Joined(x.value, r), Joined(y.value, s))
  {
  }

  lemma OneAlike(flow: Flow, a: RunState, b: RunState, ctx: TemplateContext, target: StepId)
    requires Alike(a, b)
    ensures AlikeActivations(ActivateOne(flow, a, ctx, target), ActivateOne(flow, b, ctx, target))
  {
    SameStatus(a, b);
    assert AlikeAt(a.steps, b.steps, target);
    hide ResolveInput, Alike, Essence;
  }

  lemma RoutedAlike(flow: Flow, mark: Mark, cancels: seq<StepId>, a: RunState, b: RunState, targets: seq<StepId>)
    requires Alike(a, b)
    ensures AlikeEffects(Routed(flow, mark, cancels, a, targets), Routed(flow, mark, cancels, b, targets))
  {
    SameContext(flow, a, b);
    ActivationsAlike(flow, a, b, BuildContext(flow, a), targets);
    SamePhase(a, b);
    SameKeys(a, b);
    SameUnreached(flow.steps, a, b);
    hide Alike, BuildContext, ActivateTargets, AllTerminal, Phase, Unreached;
  }

  // ----- the states the engine goes on with ---------------------------------------------

  lemma PutAlike(a: RunState, b: RunState, id: StepId, x: StepRun, y: StepRun)
    requires Alike(a, b) && Essence(x) == Essence(y) && x.attempt <= y.attempt
    ensures Alike(a.(steps := a.steps[id := x]), b.(steps := b.steps[id := y]))
  {
    var c, d := a.steps[id := x], b.steps[id := y];
    hide Essence;
    forall k ensures AlikeAt(c, d, k) { assert AlikeAt(a.steps, b.steps, k); }
  }

  lemma UpsertAlike(a: RunState, b: RunState, id: StepId, status: StepStatus, output: Option<Value>)
    requires Alike(a, b)
    ensures Alike(Upsert(a, id, status, output), Upsert(b, id, status, output))
  {
    assert AlikeAt(a.steps, b.steps, id);
    var x, y := Upsert(a, id, status, output).steps[id], Upsert(b, id, status, output).steps[id];
    if id in a.steps { EssenceWith(a.steps[id], b.steps[id], status, output); }
    PutAlike(a, b, id, x, y);
  }

  lemma EssenceWith(x: StepRun, y: StepRun, status: StepStatus, output: Option<Value>)
    requires Essence(x) == Essence(y)
    ensures x.output == y.output
    ensures Essence(x.(status := status, output := output)) == Essence(y.(status := status, output := output))
    ensures Essence(x.(status := status)) == Essence(y.(status := status)) && x.status == y.status
  {
    assert Essence(x).output == x.output && Essence(y).output == y.output;
    assert Essence(x).status == x.status && Essence(y).status == y.status;
    assert Essence(x.(status := status, output := output)) == Essence(x).(status := status, output := output);
    assert Essence(y.(status := status, output := output)) == Essence(y).(status := status, output := output);
    assert Essence(x.(status := status)) == Essence(x).(status := status);
    assert Essence(y.(status := status)) == Essence(y).(status := status);
  }

  lemma CancelAlike(a: RunState, b: RunState)
    requires Alike(a, b)
    ensures Alike(CancelActive(a), CancelActive(b)) && Alike(StoppedState(a), StoppedState(b))
  {
    var c, d := CancelActive(a), CancelActive(b);
    var e, f := StoppedState(a), StoppedState(b);
    hide Essence;
    forall id ensures AlikeAt(c.steps, d.steps, id) && AlikeAt(e.steps, f.steps, id) {
      assert AlikeAt(a.steps, b.steps, id);
      if id in a.steps { EssenceWith(a.steps[id], b.steps[id], StepStatus.Cancelled, None); }
    }
  }

  lemma FailedAlike(a: RunState, b: RunState, id: StepId, reason: string)
    requires Alike(a, b)
    ensures Alike(FailedState(a, id, reason), FailedState(b, id, reason))
  {
    var u, v := Upsert(a, id, StepStatus.Failed, None), Upsert(b, id, StepStatus.Failed, None);
    UpsertAlike(a, b, id, StepStatus.Failed, None);
    CancelAlike(u, v);
    ReasonAlike(CancelActive(u), CancelActive(v), id, reason);
    hide Alike, Essence;
  }

  lemma ReasonAlike(a: RunState, b: RunState, id: StepId, reason: string)
    requires Alike(a, b) && id in a.steps && id in b.steps
    ensures Alike(a.(steps := a.steps[id := a.steps[id].(failureReason := Some(reason))]),
                  b.(steps := b.steps[id := b.steps[id].(failureReason := Some(reason))]))
  {
    assert AlikeAt(a.steps, b.steps, id);
    hide Alike, Essence;
    EssenceOther(a.steps[id], b.steps[id]);
    PutAlike(a, b, id, a.steps[id].(failureReason := Some(reason)), b.steps[id].(failureReason := Some(reason)));
  }

  /** The other fields an event writes. */
  lemma EssenceOther(x: StepRun, y: StepRun)
    requires Essence(x) == Essence(y)
    ensures forall r :: Essence(x.(failureReason := r)) == Essence(y.(failureReason := r))
    ensures forall s, c :: Essence(x.(approvalStatus := s, approvalComment := c))
                           == Essence(y.(approvalStatus := s, approvalComment := c))
    ensures forall s, f :: Essence(x.(approvalStatus := s, feedback := f))
                           == Essence(y.(approvalStatus := s, feedback := f))
  {
    forall r ensures Essence(x.(failureReason := r)) == Essence(y.(failureReason := r)) {
      assert Essence(x.(failureReason := r)) == Essence(x).(failureReason := r);
    }
    forall s, c ensures Essence(x.(approvalStatus := s, approvalComment := c))
                        == Essence(y.(approvalStatus := s, approvalComment := c)) {
      assert Essence(x.(approvalStatus := s, approvalComment := c))
          == Essence(x).(approvalStatus := s, approvalComment := c);
    }
    forall s, f ensures Essence(x.(approvalStatus := s, feedback := f))
        == Essence(y.(approvalStatus := s, feedback := f)) {
      assert Essence(x.(approvalStatus := s, feedback := f)) == Essence(x).(approvalStatus := s, feedback := f);
    }
  }

  lemma VerdictAlike(a: RunState, b: RunState, id: StepId, comment: Option<string>, feedback: string)
    requires Alike(a, b)
    ensures Alike(ApprovedState(a, id, comment), ApprovedState(b, id, comment))
    ensures Alike(RejectedState(a, id, feedback), RejectedState(b, id, feedback))
  {
    UpsertAlike(a, b, id, StepStatus.Completed, None);
    UpsertAlike(a, b, id, StepStatus.FailedRejected, None);
    Verdict(Upsert(a, id, StepStatus.Completed, None), Upsert(b, id, StepStatus.Completed, None), id, comment,
            feedback);
    Verdict(Upsert(a, id, StepStatus.FailedRejected, None), Upsert(b, id, StepStatus.FailedRejected, None), id,
            comment, feedback);
    hide Essence, AlikeSteps;
  }

  lemma Verdict(a: RunState, b: RunState, id: StepId, comment: Option<string>, feedback: string)
    requires Alike(a, b) && id in a.steps && id in b.steps
    ensures var x, y := a.steps[id], b.steps[id];
            && Alike(a.(steps := a.steps[id := x.(approvalStatus := Some(Approved), approvalComment := comment)]),
                     b.(steps := b.steps[id := y.(approvalStatus := Some(Approved), approvalComment := comment)]))
            && Alike(a.(steps := a.steps[id := x.(approvalStatus := Some(Rejected), feedback := Some(feedback))]),
                     b.(steps := b.steps[id := y.(approvalStatus := Some(Rejected), feedback := Some(feedback))]))
  {
    assert AlikeAt(a.steps, b.steps, id);
    var x, y := a.steps[id], b.steps[id];
    hide Alike, Essence;
    EssenceOther(x, y);
    PutAlike(a, b, id, x.(approvalStatus := Some(Approved), approvalComment := comment),
             y.(approvalStatus := Some(Approved), approvalComment := comment));
    PutAlike(a, b, id, x.(approvalStatus := Some(Rejected), feedback := Some(feedback)),
             y.(approvalStatus := Some(Rejected), feedback := Some(feedback)));
  }

  // ----- one move -----------------------------------------------------------------------

  /** A failure that is retried: the one thing that depends on an attempt number. */
  predicate Retry(flow: Flow, state: RunState, event: Event) {
    event.StepFailed? && Reruns(flow, state, event)
  }

  /** In alike states the engine decides alike, retries aside. */
  lemma TransitionAlike(flow: Flow, a: RunState, b: RunState, event: Event)
    requires Alike(a, b) && !Retry(flow, a, event)
    ensures AlikeEffects(Transition(flow, a, event), Transition(flow, b, event)) && !Retry(flow, b, event)
  {
    hide *;
    match event {
      case RunStarted => StartAlike(flow, a, b);
      case StepCompleted(id, output) => CompletedAlike(flow, a, b, id, output);
      case StepFailed(id, reason) => FailureAlike(flow, a, b, id, reason);
      case StepApproved(id, comment) => ApprovalAlike(flow, a, b, id, comment);
      case StepRejected(id, feedback) => RejectionAlike(flow, a, b, id, feedback);
      case _ => StopAlike(flow, a, b, event);
    }
  }

  lemma StartAlike(flow: Flow, a: RunState, b: RunState)
    requires Alike(a, b)
    ensures AlikeEffects(Transition(flow, a, Event.RunStarted), Transition(flow, b, Event.RunStarted))
    ensures !Retry(flow, b, Event.RunStarted)
  {
    hide Alike, BuildContext, ActivateTargets, Dag.EntrySteps, AlikeSteps, AlikeActs, AlikeAt, Essence;
    SameContext(flow, a, b);
    ActivationsAlike(flow, a, b, BuildContext(flow, a), Dag.EntrySteps(flow));
  }

  lemma CompletedAlike(flow: Flow, a: RunState, b: RunState, id: StepId, output: Value)
    requires Alike(a, b)
    ensures AlikeEffects(Transition(flow, a, Event.StepCompleted(id, output)),
                         Transition(flow, b, Event.StepCompleted(id, output)))
    ensures !Retry(flow, b, Event.StepCompleted(id, output))
  {
    hide Alike, Upsert, Routed, AlikeSteps, AlikeAt, Essence;
    UpsertAlike(a, b, id, WaitingApproval, Some(output));
    UpsertAlike(a, b, id, StepStatus.Completed, Some(output));
    if flow.Defined(id) {
      RoutedAlike(flow, Mark(id, StepStatus.Completed), [], Upsert(a, id, StepStatus.Completed, Some(output)),
                  Upsert(b, id, StepStatus.Completed, Some(output)), RouteTargets(flow.StepOf(id).value.onSuccess));
    }
  }

  lemma SameAttempts(a: RunState, b: RunState, id: StepId)
    requires Alike(a, b)
    ensures Attempt(a, id) <= Attempt(b, id) && NextAttempt(a, id) <= NextAttempt(b, id)
  {
    assert AlikeAt(a.steps, b.steps, id);
  }

  lemma FailureAlike(flow: Flow, a: RunState, b: RunState, id: StepId, reason: string)
    requires Alike(a, b) && !Retry(flow, a, Event.StepFailed(id, reason))
    ensures AlikeEffects(Transition(flow, a, Event.StepFailed(id, reason)),
                         Transition(flow, b, Event.StepFailed(id, reason)))
    ensures !Retry(flow, b, Event.StepFailed(id, reason))
  {
    hide Alike, FailedState, Routed, ActiveExcluding, Attempt, ResolveInput, BuildContext, AlikeSteps, AlikeActs,
         AlikeAt, Essence;
    SameAttempts(a, b, id);
    SameActive(a, b, id);
    FailedAlike(a, b, id, reason);
    if flow.Defined(id) {
      RoutedAlike(flow, Mark(id, StepStatus.Failed), ActiveExcluding(a, id), FailedState(a, id, reason),
                  FailedState(b, id, reason), RouteTargets(flow.StepOf(id).value.onFailure));
    }
  }

  lemma ApprovalAlike(flow: Flow, a: RunState, b: RunState, id: StepId, comment: Option<string>)
    requires Alike(a, b)
    ensures AlikeEffects(Transition(flow, a, Event.StepApproved(id, comment)),
                         Transition(flow, b, Event.StepApproved(id, comment)))
    ensures !Retry(flow, b, Event.StepApproved(id, comment))
  {
    hide Alike, ApprovedState, RejectedState, Routed, AlikeSteps, AlikeActs, AlikeAt, Essence;
    VerdictAlike(a, b, id, comment, "");
    if flow.Defined(id) {
      RoutedAlike(flow, Mark(id, StepStatus.Completed), [], ApprovedState(a, id, comment),
                  ApprovedState(b, id, comment),
                  RouteTargets(flow.StepOf(id).value.onApprove));
    }
  }

  lemma RejectionAlike(flow: Flow, a: RunState, b: RunState, id: StepId, feedback: string)
    requires Alike(a, b)
    ensures AlikeEffects(Transition(flow, a, Event.StepRejected(id, feedback)),
                         Transition(flow, b, Event.StepRejected(id, feedback)))
    ensures !Retry(flow, b, Event.StepRejected(id, feedback))
  {
    hide Alike, ApprovedState, RejectedState, Routed, ResolveRejectInput, BuildContext, NextAttempt,
         Dag.IsSelfRejectLoop, AlikeSteps, AlikeAt, Essence;
    VerdictAlike(a, b, id, None, feedback);
    SameAttempts(a, b, id);
    if flow.Defined(id) {
      RoutedAlike(flow, Mark(id, FailedRejected), [], RejectedState(a, id, feedback), RejectedState(b, id, feedback),
                  RouteTargets(flow.StepOf(id).value.onReject));
      SameContext(flow, RejectedState(a, id, feedback), RejectedState(b, id, feedback));
    }
  }

  lemma StopAlike(flow: Flow, a: RunState, b: RunState, event: Event)
    requires Alike(a, b) && (event.RunDeadlineExceeded? || event.CancelRequested?)
    ensures AlikeEffects(Transition(flow, a, event), Transition(flow, b, event)) && !Retry(flow, b, event)
  {
    hide CancelActive, StoppedState, ActiveExcluding, AlikeSteps, AlikeAt, Essence;
    SameActive(a, b, NOTHING);
    CancelAlike(a, b);
  }

  lemma {:induction false} OverlayAlike(a: Steps, b: Steps, x: seq<StepActivation>, y: seq<StepActivation>)
    requires AlikeSteps(a, b) && AlikeActs(x, y)
    ensures AlikeSteps(Overlay(a, x), Overlay(b, y))
  {
    if x != [] {
      var n := |x| - 1;
      OverlayAlike(a, b, x[..n], y[..n]);
      var c, d := Overlay(a, x[..n]), Overlay(b, y[..n]);
      assert Essence(ActivatedRun(x[n])) == Essence(ActivatedRun(y[n]));
      assert ActivatedRun(x[n]).attempt <= ActivatedRun(y[n]).attempt;
      hide Essence, ActivatedRun, Overlay;
      var e, f := c[x[n].stepId := ActivatedRun(x[n])], d[y[n].stepId := ActivatedRun(y[n])];
      forall id ensures AlikeAt(e, f, id) { assert AlikeAt(c, d, id); }
    }
  }

  lemma MoveAlike(flow: Flow, r: Run, s: Run, m: Move)
    requires AlikeRuns(r, s) && CanMove(flow, r, m) && (m.Did? ==> !Retry(flow, r.state, m.event))
    ensures CanMove(flow, s, m) && AlikeRuns(Moved(flow, r, m), Moved(flow, s, m))
    ensures m.Did? ==> !Retry(flow, s.state, m.event)
  {
    if m.Did? {
      TransitionAlike(flow, r.state, s.state, m.event);
      SameEnabled(r.state, s.state, m.event);
      var d, e := Transition(flow, r.state, m.event).value, Transition(flow, s.state, m.event).value;
      hide Transition, Enabled, AlikeSteps, Overlay, Retry, MarkNotes, ActNotes, EndNotes;
      OverlayAlike(d.next.steps, e.next.steps, d.activations[..m.j], e.activations[..m.j]);
    }
  }

  lemma SameEnabled(a: RunState, b: RunState, event: Event)
    requires Alike(a, b)
    ensures Enabled(a, event) <==> Enabled(b, event)
  {
    SameStatus(a, b);
    SameKeys(a, b);
    hide Alike;
    assert a.steps == map[] <==> a.steps.Keys == {};
    assert b.steps == map[] <==> b.steps.Keys == {};
  }

  // ----- laps ---------------------------------------------------------------------------

  /** No failure on the way is retried. */
  ghost predicate NoRetries(flow: Flow, start: Run, moves: seq<Move>) {
    moves == [] ||
    (NoRetries(flow, start, moves[..|moves| - 1])
     && (moves[|moves| - 1].Did? ==>
         !Retry(flow, Play(flow, start, moves[..|moves| - 1]).state, moves[|moves| - 1].event)))
  }

  /** What can be played from a run can be played from every run alike. */
  lemma {:induction false} PlayAlike(flow: Flow, r: Run, s: Run, moves: seq<Move>)
    requires AlikeRuns(r, s) && Playable(flow, r, moves) && NoRetries(flow, r, moves)
    ensures Playable(flow, s, moves) && NoRetries(flow, s, moves)
    ensures AlikeRuns(Play(flow, r, moves), Play(flow, s, moves))
    decreases |moves|
  {
    hide AlikeRuns, CanMove, Moved, Retry;
    if moves != [] {
      var n := |moves| - 1;
      PlayAlike(flow, r, s, moves[..n]);
      MoveAlike(flow, Play(flow, r, moves[..n]), Play(flow, s, moves[..n]), moves[n]);
    }
  }

  lemma {:induction false} PlayConcat(flow: Flow, start: Run, a: seq<Move>, b: seq<Move>)
    ensures Play(flow, start, a + b) == Play(flow, Play(flow, start, a), b)
    ensures Playable(flow, start, a + b) <==> Playable(flow, start, a) && Playable(flow, Play(flow, start, a), b)
    decreases |b|
  {
    hide CanMove, Moved;
    if b == [] {
      assert a + b == a;
    } else {
      var n := |b| - 1;
      assert (a + b)[..|a + b| - 1] == a + b[..n];
      PlayConcat(flow, start, a, b[..n]);
    }
  }

  function Repeated(lap: seq<Move>, n: nat): (all: seq<Move>)
    ensures |all| == n * |lap|
  {
    if n == 0 then [] else
      assert n * |lap| == (n - 1) * |lap| + |lap|;
      Repeated(lap, n - 1) + lap
  }

  /** The moves lead from a reachable run to one alike, without a retry. */
  ghost predicate IsLap(flow: Flow, r: Run, lap: seq<Move>) {
    Playable(flow, r, lap) && NoRetries(flow, r, lap) && AlikeRuns(r, Play(flow, r, lap))
  }

  /** A run that has come back once comes back any number of times. */
  lemma {:induction false} LapsForever(flow: Flow, start: Run, moves: seq<Move>, lap: seq<Move>, n: nat)
    requires Playable(flow, start, moves) && IsLap(flow, Play(flow, start, moves), lap)
    ensures Playable(flow, start, moves + Repeated(lap, n))
    ensures AlikeRuns(Play(flow, start, moves), Play(flow, start, moves + Repeated(lap, n)))
  {
    hide AlikeRuns, NoRetries, Playable, Play;
    var r := Play(flow, start, moves);
    if n == 0 {
      assert moves + [] == moves;
      Itself(r);
    } else {
      var before := moves + Repeated(lap, n - 1);
      var s := Play(flow, start, before);
      LapsForever(flow, start, moves, lap, n - 1);
      PlayAlike(flow, r, s, lap);
      PlayConcat(flow, start, before, lap);
      AlikeRunsChain(r, Play(flow, r, lap), Play(flow, s, lap));
      assert before + lap == moves + Repeated(lap, n);
    }
  }

  lemma Itself(r: Run)
    ensures AlikeRuns(r, r)
  {
  }

  // ----- laps and layers ----------------------------------------------------------------

  lemma {:induction false} CountsConcat(flow: Flow, a: seq<Move>, b: seq<Move>)
    ensures CountSteps(a + b) == CountSteps(a) + CountSteps(b)
    ensures CountLoops(flow, a + b) == CountLoops(flow, a) + CountLoops(flow, b)
    decreases |b|
  {
    if b == [] {
      assert a + b == a;
    } else {
      var n := |b| - 1;
      assert (a + b)[..|a + b| - 1] == a + b[..n];
      CountsConcat(flow, a, b[..n]);
    }
  }

  lemma {:induction false} CountsRepeated(flow: Flow, lap: seq<Move>, n: nat)
    ensures CountSteps(Repeated(lap, n)) == n * CountSteps(lap)
    ensures CountLoops(flow, lap) == 0 ==> CountLoops(flow, Repeated(lap, n)) == 0
  {
    hide CountSteps, CountLoops;
    if n == 0 {
      assert CountSteps([]) == 0 && CountLoops(flow, []) == 0 by { NoCounts(flow); }
    } else {
      CountsRepeated(flow, lap, n - 1);
      CountsConcat(flow, Repeated(lap, n - 1), lap);
      assert n * CountSteps(lap) == (n - 1) * CountSteps(lap) + CountSteps(lap);
    }
  }

  lemma NoCounts(flow: Flow)
    ensures CountSteps([]) == 0 && CountLoops(flow, []) == 0
  {
  }

  /** The two sides meet: in a layered flow no reachable run has a lap with a step event, unless
      the lap holds a rejection that sends its step back to itself. */
  lemma LayeredHasNoLap(new_: NewRun, rank: map<StepId, nat>, top: nat, most: nat, moves: seq<Move>, lap: seq<Move>)
    requires var flow := new_.definition; Layered(flow, rank, top) && UniqueIds(flow) && RetriesUpTo(flow, most)
    requires Playable(new_.definition, NewPlay(new_), moves)
    requires IsLap(new_.definition, Play(new_.definition, NewPlay(new_), moves), lap)
    ensures CountLoops(new_.definition, lap) == 0 ==> CountSteps(lap) == 0
  {
    hide *;
    var flow, start := new_.definition, NewPlay(new_);
    if CountLoops(flow, lap) == 0 {
      var n := StartWeight(flow, rank, top) + CountLoops(flow, moves) * (2 + most) + 1;
      LapsForever(flow, start, moves, lap, n);
      RunsEnd(new_, rank, top, most, moves + Repeated(lap, n));
      CountsConcat(flow, moves, Repeated(lap, n));
      CountsRepeated(flow, lap, n);
      if CountSteps(lap) > 0 { AtLeast(n, CountSteps(lap)); }
    }
  }

  lemma AtLeast(n: nat, k: nat)
    requires k > 0
    ensures n * k >= n
  {
  }
}
