/** The dynamic side of a run: statuses, attempts, events, commands, and the phase derived
    from step statuses. */
module RunTypes {
  import opened Wrappers
  import opened FlowTypes

  datatype RunPhase = Running | Completed | Failed | Cancelled

  datatype StepStatus =
    | Pending
    | Running
    | WaitingApproval
    | WaitingOnSubflow
    | Completed
    | Failed
    | FailedRejected
    | Skipped
    | Cancelled
  {
    predicate IsTerminal() {
      Completed? || Failed? || FailedRejected? || Skipped? || Cancelled?
    }

    predicate IsActive() {
      Running? || WaitingApproval? || WaitingOnSubflow?
    }
  }

  datatype ApprovalStatus = Unresolved | Approved | Rejected

  datatype StepRun = StepRun(
    stepId: StepId,
    status: StepStatus,
    attempt: nat,
    inputResolved: Option<string>,
    output: Option<Value>,
    approvalStatus: Option<ApprovalStatus>,
    feedback: Option<string>,
    approvalComment: Option<string>,
    failureReason: Option<string>,
    childRunId: Option<string>)

  /** `steps` holds the latest attempt of every step that has one. */
  datatype RunState = RunState(steps: map<StepId, StepRun>, cancelled: bool, inputs: Value, trigger: Value)

  datatype Event =
    | RunStarted
    | StepCompleted(stepId: StepId, output: Value)
    | StepFailed(stepId: StepId, reason: string)
    | StepApproved(stepId: StepId, comment: Option<string>)
    | StepRejected(stepId: StepId, feedback: string)
    | RunDeadlineExceeded
    | CancelRequested

  datatype StepActivation = StepActivation(stepId: StepId, attempt: nat, input: string)

  datatype Command =
    | ActivateSteps(activations: seq<StepActivation>)
    | WaitApproval(stepId: StepId)
    | CancelSteps(stepIds: seq<StepId>)
    | MarkStepStatus(stepId: StepId, status: StepStatus)
    | MarkRunTerminal(phase: RunPhase)

  datatype EngineError =
    | IllegalTransition(step: StepId, from: StepStatus, to: StepStatus)
    | UnknownStep(id: StepId)

  // ----- derived phase ------------------------------------------------------------------

  predicate AllTerminal(state: RunState) {
    forall id | id in state.steps :: state.steps[id].status.IsTerminal()
  }

  predicate SomeStatus(state: RunState, status: StepStatus) {
    exists id :: id in state.steps && state.steps[id].status == status
  }

  predicate SomeActive(state: RunState) {
    exists id :: id in state.steps && state.steps[id].status.IsActive()
  }

  /** `derive::phase`. */
  function Phase(state: RunState): RunPhase {
    if state.cancelled && AllTerminal(state) && SomeStatus(state, StepStatus.Cancelled) then RunPhase.Cancelled
    else if !AllTerminal(state) then RunPhase.Running
    else if SomeStatus(state, StepStatus.Failed) || SomeStatus(state, StepStatus.FailedRejected) then RunPhase.Failed
    else if SomeStatus(state, StepStatus.Cancelled) then RunPhase.Cancelled
    else RunPhase.Completed
  }
}
