/** The retry budget over whole runs: a step's `retries` bounds its automatic
    re-executions for the whole run, however often routing loops activate it again. */
module Budget {
  import opened FlowTypes
  import opened RunTypes
  import opened Engine
  import opened Store
  import opened Core
  import opened Machine
  import opened Invariants

  /** A failed job that the engine answers by running the same step again. */
  predicate Retries(flow: Flow, r: Run, m: Move, id: StepId) {
    m.Did? && m.event.StepFailed? && m.event.stepId == id && Reruns(flow, r.state, m.event)
  }

  function RetryCount(flow: Flow, start: Run, moves: seq<Move>, id: StepId): nat {
    if moves == [] then 0
    else
      var n := |moves| - 1;
      RetryCount(flow, start, moves[..n], id)
          + (if Retries(flow, Play(flow, start, moves[..n]), moves[n], id) then 1 else 0)
  }

  function LatestAttempt(r: Run, id: StepId): nat {
    if id in r.state.steps then r.state.steps[id].attempt else 0
  }

  /** One move never lowers a step's attempt; a retry raises it by one, from within budget. */
  lemma AttemptGrows(flow: Flow, r: Run, m: Move, id: StepId)
    requires Invariant(flow, r) && CanMove(flow, r, m)
    ensures LatestAttempt(Moved(flow, r, m), id) >= LatestAttempt(r, id)
    ensures Retries(flow, r, m, id) ==>
              && 1 <= LatestAttempt(r, id) <= flow.StepOf(id).value.retries
              && LatestAttempt(Moved(flow, r, m), id) == LatestAttempt(r, id) + 1
  {
    if m.Did? {
      var e := Transition(flow, r.state, m.event).value;
      hide Transition, RowsSound, FailuresSpent, PhaseTracks, LogAgrees, EndsOnce, After, RowAfter, CancelIds,
           MarkedSteps, ActivateTargets, BuildContext, NoVerdictYet;
      AfterRows(flow, r, m.event, e, m.j);
      AttemptAfter(r.state.steps, m.event, e, m.j, After(r, e, m.j).state.steps, id);
      if Retries(flow, r, m, id) {
        assert e.activations[..m.j][0] == e.activations[0];
        AttemptPositive(flow, r, id);
      }
    }
  }

  lemma AttemptPositive(flow: Flow, r: Run, id: StepId)
    requires RowsSound(flow, r)
    ensures id in r.state.steps ==> r.state.steps[id].attempt >= 1
  {
  }

  lemma AttemptAfter(before: Steps, event: Event, e: Effect, j: nat, after: Steps, id: StepId)
    requires j <= |e.activations| && RowAfter(before, event, e, j, after, id)
    ensures id in before ==> id in after && after[id].attempt >= before[id].attempt
    ensures id in ActIds(e.activations[..j]) ==>
              id in after && after[id].attempt == (if id in before then before[id].attempt + 1 else 1)
  {
  }

  /** Over a whole run, the retries of a step stay below its attempts and within its budget. */
  lemma {:induction false} RetryBudget(new_: NewRun, moves: seq<Move>, id: StepId)
    requires Playable(new_.definition, NewPlay(new_), moves)
    ensures var count := RetryCount(new_.definition, NewPlay(new_), moves, id);
            var attempt := LatestAttempt(Play(new_.definition, NewPlay(new_), moves), id);
            && (count > 0 ==> count < attempt)
            && (new_.definition.Defined(id) ==> count <= new_.definition.StepOf(id).value.retries)
            && (!new_.definition.Defined(id) ==> count == 0)
    decreases |moves|
  {
    if moves != [] {
      var n := |moves| - 1;
      var flow, r := new_.definition, Play(new_.definition, NewPlay(new_), moves[..n]);
      hide Invariant, CanMove, Moved, Reruns;
      RetryBudget(new_, moves[..n], id);
      PlayInvariant(new_, moves[..n]);
      AttemptGrows(flow, r, moves[n], id);
      RetriesDefined(flow, r, moves[n], id);
    }
  }

  lemma RetriesDefined(flow: Flow, r: Run, m: Move, id: StepId)
    ensures Retries(flow, r, m, id) ==> flow.Defined(id)
  {
  }
}
