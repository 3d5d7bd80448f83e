/**
 * What a node handler reports back to the executor (the handler package): a phase, an
 * optional structured error and optional execution details, wrapped in a transition.
 */
module Handler {
  import opened Wrappers
  import opened Core

  /** handler.EPhase, the phases this model produces. Undefined is the zero value. */
  datatype EPhase = Undefined | Running | Success | Failed

  /** handler.OutputInfo */
  datatype OutputInfo = OutputInfo(outputUri: DataReference)

  /** handler.ExecutionInfo, with WorkflowNodeInfo flattened to the launched workflow id. */
  datatype ExecutionInfo = ExecutionInfo(launchedWorkflowId: Option<WorkflowExecutionIdentifier>,
                                         outputInfo: Option<OutputInfo>)

  /** handler.PhaseInfo */
  datatype PhaseInfo = PhaseInfo(phase: EPhase, err: Option<ExecutionError>, info: Option<ExecutionInfo>)

  datatype TransitionType = Ephemeral | Barrier

  /** handler.Transition */
  datatype Transition = Transition(transitionType: TransitionType, info: PhaseInfo)

  /** handler.UnknownTransition, the zero Transition returned beside a Go error. */
  const UnknownTransition := Transition(Ephemeral, PhaseInfo(Undefined, None, None))

  function DoTransition(tt: TransitionType, info: PhaseInfo): Transition {
    Transition(tt, info)
  }

  function PhaseInfoRunning(info: Option<ExecutionInfo>): PhaseInfo {
    PhaseInfo(Running, None, info)
  }

  function PhaseInfoSuccess(info: Option<ExecutionInfo>): PhaseInfo {
    PhaseInfo(Success, None, info)
  }

  function PhaseInfoFailure(kind: ErrorKind, code: string, message: Message, info: Option<ExecutionInfo>): PhaseInfo {
    PhaseInfo(Failed, Some(ExecutionError(kind, code, message)), info)
  }

  function PhaseInfoFailureErr(err: ExecutionError, info: Option<ExecutionInfo>): PhaseInfo {
    PhaseInfo(Failed, Some(err), info)
  }

  /** The Go pair (Transition, error) returned by a handler operation. */
  datatype Outcome = Outcome(transition: Transition, err: Option<Error>) {
    function Phase(): EPhase {
      transition.info.phase
    }
  }
}
