/**
 * The launch-plan handler (pkg/controller/nodes/subworkflow/launchplan.go): it starts a remote
 * child execution, polls it and maps its phase onto the node, and aborts it. Every remote id
 * is recomputed from the node's lineage, so a re-entered pass addresses the same execution.
 *
 * Remote calls and storage writes are parameters; each result records the requests issued.
 */
module LaunchPlan {
  import opened Wrappers
  import opened Core
  import opened ExecutionContexts
  import opened Lineage
  import opened Handler

  /** v1alpha1.EventVersion0 */
  const EventVersion0: int := 0

  // nodes/errors error codes used here
  const RuntimeExecutionError := "RuntimeExecutionError"
  const RemoteChildWorkflowExecutionFailed := "RemoteChildWorkflowExecutionFailed"
  const CausedByError := "CausedByError"

  /** The node execution context, reduced to what the handler reads. */
  datatype NodeExecutionContext = NodeExecutionContext(
    nodeExecutionId: NodeExecutionIdentifier,  // NodeExecutionMetadata().GetNodeExecutionID()
    executionContext: ExecutionContext,
    nodeId: NodeId,                            // NodeID()
    currentAttempt: uint32,
    inputs: Result<LiteralMap, Error>,         // InputReader().Get(ctx)
    launchPlanRef: Identifier,                 // the workflow node's launch-plan reference
    outputDir: DataReference)                  // NodeStatus().GetOutputDir()

  /** GetChildWorkflowExecutionID(parent node-execution id, attempt): opaque, may fail. */
  type ChildIdFn = (NodeExecutionIdentifier, uint32) -> Result<WorkflowExecutionIdentifier, Error>

  /** The two id functions the handler relies on. */
  datatype IdScheme = IdScheme(fixedLength: FixedLengthIdFn, childExecutionId: ChildIdFn)

  /** launchplan.LaunchContext */
  datatype LaunchContext = LaunchContext(principal: string, nestingLevel: int,
                                         parentNodeExecution: NodeExecutionIdentifier)

  /** The arguments of one remote Launch call. */
  datatype LaunchRequest = LaunchRequest(launchContext: LaunchContext, childId: WorkflowExecutionIdentifier,
                                         launchPlanRef: Identifier, inputs: LiteralMap)

  /**
   * What Launch returned: success, or an error with the answers of the launchplan package's
   * IsAlreadyExists and IsUserError predicates on it.
   */
  datatype LaunchResponse = LaunchOk | LaunchError(err: Error, alreadyExists: bool, userError: bool)

  /** core.WorkflowExecution_Phase */
  datatype WorkflowPhase = Undefined | Queued | Running | Succeeding | Succeeded | Failing | Failed | Aborted | TimedOut

  /** core.LiteralMapBlob, a oneof: inline values, a URI, or neither. */
  datatype LiteralMapBlob = BlobValues(values: LiteralMap) | BlobUri(uri: string) | BlobEmpty {
    function GetUri(): string {
      if BlobUri? then uri else ""
    }
    function GetValues(): Option<LiteralMap> {
      if BlobValues? then Some(values) else None
    }
  }

  /** The remote execution's status closure. */
  datatype WorkflowClosure = WorkflowClosure(phase: WorkflowPhase, error: Option<ExecutionError>,
                                             outputs: Option<LiteralMapBlob>)

  /**
   * What GetStatus returned: a closure (possibly nil), or an error with the answer of
   * launchplan.IsNotFound and the code errors.GetErrorCode extracts from it.
   */
  datatype StatusResponse = StatusOk(closure: Option<WorkflowClosure>)
                          | StatusError(err: Error, notFound: bool, errorCode: string)

  /** A write to the data store: CopyRaw(source, destination) or WriteProtobuf(destination, values). */
  datatype StoreWrite = CopyRaw(source: DataReference, destination: DataReference)
                      | WriteProtobuf(destination: DataReference, values: Option<LiteralMap>)

  /** The arguments of one remote Kill call. */
  datatype KillRequest = KillRequest(childId: WorkflowExecutionIdentifier, reason: string)

  /** launchplan.Executor: the remote launch backend. */
  datatype Executor = Executor(launch: LaunchRequest -> LaunchResponse,
                               getStatus: WorkflowExecutionIdentifier -> StatusResponse,
                               kill: KillRequest -> Option<Error>)

  datatype StartResult = StartResult(outcome: Outcome, launched: Option<LaunchRequest>)
  datatype CheckResult = CheckResult(outcome: Outcome, polled: Option<WorkflowExecutionIdentifier>,
                                     written: Option<StoreWrite>)
  datatype AbortResult = AbortResult(err: Option<Error>, killed: Option<KillRequest>)

  /**
   * getParentNodeExecutionID: the execution id is copied; the node id is the lineage unique id
   * from event version 1 on, and the raw node id under event version 0.
   */
  function GetParentNodeExecutionId(ids: IdScheme, nCtx: NodeExecutionContext): (r: Result<NodeExecutionIdentifier, Error>)
    ensures r.Ok? ==> r.value.executionId == nCtx.nodeExecutionId.executionId
    ensures nCtx.executionContext.eventVersion == EventVersion0 ==>
      r == Ok(NodeExecutionIdentifier(nCtx.nodeExecutionId.executionId, nCtx.nodeExecutionId.nodeId))
    ensures nCtx.executionContext.eventVersion != EventVersion0 ==>
      var uid := GenerateUniqueId(ids.fixedLength, nCtx.executionContext.parentInfo, nCtx.nodeExecutionId.nodeId);
      && (r.Ok? <==> uid.Ok?)
      && (r.Ok? ==> r.value.nodeId == uid.value)
      && (r.Err? ==> r.error == uid.error)
  {
    var nodeExecId := nCtx.nodeExecutionId;
    if nCtx.executionContext.eventVersion != EventVersion0 then
      match GenerateUniqueId(ids.fixedLength, nCtx.executionContext.parentInfo, nodeExecId.nodeId)
      case Err(e) => Err(e)
      case Ok(uid) => Ok(NodeExecutionIdentifier(nodeExecId.executionId, uid))
    else
      Ok(NodeExecutionIdentifier(nodeExecId.executionId, nodeExecId.nodeId))
  }

  /**
   * From event version 1 on, the node id under which the launch plan registers its parent is
   * the unique id the node hands down as parent lineage to its own children (CreateParentInfo),
   * so both handlers name one node occurrence by one id, and an id failure fails both alike.
   */
  lemma ParentIdIsLineageId(ids: IdScheme, nCtx: NodeExecutionContext)
    requires nCtx.executionContext.eventVersion != EventVersion0
    requires nCtx.nodeExecutionId.nodeId == nCtx.nodeId
    ensures var lineage := CreateParentInfo(ids.fixedLength, nCtx.executionContext.parentInfo, nCtx.nodeId, nCtx.currentAttempt);
      && (GetParentNodeExecutionId(ids, nCtx).Ok? <==> lineage.Ok?)
      && (lineage.Ok? ==> GetParentNodeExecutionId(ids, nCtx).value.nodeId == lineage.value.uniqueId)
      && (lineage.Err? ==> GetParentNodeExecutionId(ids, nCtx).error == lineage.error)
  {
  }

  /** The id of the child execution this node occurrence owns, when both id steps succeed. */
  function ChildExecutionId(ids: IdScheme, nCtx: NodeExecutionContext): Option<WorkflowExecutionIdentifier> {
    match GetParentNodeExecutionId(ids, nCtx)
    case Err(_) => None
    case Ok(parentId) =>
      match ids.childExecutionId(parentId, nCtx.currentAttempt)
      case Err(_) => None
      case Ok(childId) => Some(childId)
  }

  function LaunchedInfo(childId: WorkflowExecutionIdentifier): Option<ExecutionInfo> {
    Some(ExecutionInfo(Some(childId), None))
  }

  /** The transition both for a fresh launch and for one the remote side already has. */
  function LaunchedTransition(childId: WorkflowExecutionIdentifier): Transition {
    DoTransition(Ephemeral, PhaseInfoRunning(LaunchedInfo(childId)))
  }

  function FailedToCreateUniqueId(): Transition {
    DoTransition(Ephemeral, PhaseInfoFailure(System, RuntimeExecutionError, Text("failed to create unique ID"), None))
  }

  /** The reason handed to Kill when the parent execution is aborted. */
  function CascadeReason(executionName: string, reason: string): string {
    "cascading abort as parent execution id [" + executionName + "] aborted, reason [" + reason + "]"
  }

  datatype LaunchPlanHandler = LaunchPlanHandler(launchPlan: Executor) {

    /** StartLaunchPlan */
    function StartLaunchPlan(ids: IdScheme, nCtx: NodeExecutionContext): (r: StartResult)
      // reading the inputs failed: a SYSTEM failure, no error, nothing launched
      ensures nCtx.inputs.Err? ==>
        r == StartResult(Outcome(DoTransition(Ephemeral, PhaseInfoFailure(System, RuntimeExecutionError,
                           Sprintf("Failed to read input. Error [%s]", nCtx.inputs.error), None)), None), None)
      // the parent id cannot be computed: the error is returned
      ensures nCtx.inputs.Ok? && GetParentNodeExecutionId(ids, nCtx).Err? ==>
        r == StartResult(Outcome(UnknownTransition, Some(GetParentNodeExecutionId(ids, nCtx).error)), None)
      // the child id cannot be computed: a SYSTEM failure, no error
      ensures nCtx.inputs.Ok? && GetParentNodeExecutionId(ids, nCtx).Ok? && ChildExecutionId(ids, nCtx).None? ==>
        r == StartResult(Outcome(FailedToCreateUniqueId(), None), None)
      // a launch is requested exactly when the inputs and both ids are there, with exactly these arguments
      ensures r.launched.Some? <==> nCtx.inputs.Ok? && ChildExecutionId(ids, nCtx).Some?
      ensures r.launched.Some? ==>
        r.launched.value == LaunchRequest(LaunchContext("unknown", 0, GetParentNodeExecutionId(ids, nCtx).value),
                                          ChildExecutionId(ids, nCtx).value, nCtx.launchPlanRef, nCtx.inputs.value)
      // launched, or already there: Running with the child id, no error
      ensures r.launched.Some? ==>
        var resp := launchPlan.launch(r.launched.value);
        (resp.LaunchOk? || resp.alreadyExists) ==>
          r.outcome == Outcome(LaunchedTransition(r.launched.value.childId), None)
      // a user error: a USER failure with the error's text, no error
      ensures r.launched.Some? ==>
        var resp := launchPlan.launch(r.launched.value);
        (resp.LaunchError? && !resp.alreadyExists && resp.userError) ==>
          r.outcome == Outcome(DoTransition(Ephemeral, PhaseInfoFailure(User, RuntimeExecutionError, ErrorText(resp.err),
                                                     LaunchedInfo(r.launched.value.childId))), None)
      // any other launch error is returned, with the unknown transition
      ensures r.launched.Some? ==>
        var resp := launchPlan.launch(r.launched.value);
        (resp.LaunchError? && !resp.alreadyExists && !resp.userError) ==>
          r.outcome == Outcome(UnknownTransition, Some(resp.err))
    {
      match nCtx.inputs
      case Err(e) =>
        var errMsg := Sprintf("Failed to read input. Error [%s]", e);
        StartResult(Outcome(DoTransition(Ephemeral, PhaseInfoFailure(System, RuntimeExecutionError, errMsg, None)), None), None)
      case Ok(nodeInputs) =>
        match GetParentNodeExecutionId(ids, nCtx)
        case Err(e) => StartResult(Outcome(UnknownTransition, Some(e)), None)
        case Ok(parentId) =>
          match ids.childExecutionId(parentId, nCtx.currentAttempt)
          case Err(_) => StartResult(Outcome(FailedToCreateUniqueId(), None), None)
          case Ok(childId) =>
            var request := LaunchRequest(LaunchContext("unknown", 0, parentId), childId, nCtx.launchPlanRef, nodeInputs);
            match launchPlan.launch(request)
            case LaunchOk => StartResult(Outcome(LaunchedTransition(childId), None), Some(request))
            case LaunchError(err, alreadyExists, userError) =>
              if alreadyExists then
                StartResult(Outcome(LaunchedTransition(childId), None), Some(request))
              else if userError then
                StartResult(Outcome(DoTransition(Ephemeral, PhaseInfoFailure(User, RuntimeExecutionError, ErrorText(err),
                                                                             LaunchedInfo(childId))), None), Some(request))
              else
                StartResult(Outcome(UnknownTransition, Some(err)), Some(request))
    }

    /** CheckLaunchPlanStatus; `store` is the node's data store. */
    function CheckLaunchPlanStatus(ids: IdScheme, nCtx: NodeExecutionContext, store: StoreWrite -> Option<Error>): (r: CheckResult)
      // the status is polled exactly when both ids are there, for the node's own child id
      ensures r.polled == ChildExecutionId(ids, nCtx)
      ensures GetParentNodeExecutionId(ids, nCtx).Err? ==>
        r == CheckResult(Outcome(UnknownTransition, Some(GetParentNodeExecutionId(ids, nCtx).error)), None, None)
      ensures GetParentNodeExecutionId(ids, nCtx).Ok? && ChildExecutionId(ids, nCtx).None? ==>
        r == CheckResult(Outcome(FailedToCreateUniqueId(), None), None, None)
      // the data store is written only for a SUCCEEDED closure that carries outputs
      ensures r.written.Some? ==>
        && r.polled.Some?
        && var resp := launchPlan.getStatus(r.polled.value);
           resp.StatusOk? && resp.closure.Some? && resp.closure.value.phase == Succeeded && resp.closure.value.outputs.Some?
      ensures r.polled.Some? ==>
        var childId := r.polled.value;
        match launchPlan.getStatus(childId)
        case StatusError(err, notFound, code) =>
          && r.written.None?
          && (notFound ==>
                r.outcome == Outcome(DoTransition(Ephemeral, PhaseInfoFailure(System, code,
                                       ErrorText(NodeError(code, nCtx.nodeId, Some(err), "launch-plan not found")),
                                       LaunchedInfo(childId))), None))
          && (!notFound ==> r.outcome == Outcome(UnknownTransition, Some(err)))
        case StatusOk(None) =>
          r.outcome == Outcome(LaunchedTransition(childId), None)
        case StatusOk(Some(closure)) =>
          ClosureOutcome(r, childId, closure, nCtx, store)
    {
      match GetParentNodeExecutionId(ids, nCtx)
      case Err(e) => CheckResult(Outcome(UnknownTransition, Some(e)), None, None)
      case Ok(parentId) =>
        match ids.childExecutionId(parentId, nCtx.currentAttempt)
        case Err(_) => CheckResult(Outcome(FailedToCreateUniqueId(), None), None, None)
        case Ok(childId) =>
          match launchPlan.getStatus(childId)
          case StatusError(err, notFound, code) =>
            if notFound then
              var wrapped := NodeError(code, nCtx.nodeId, Some(err), "launch-plan not found");
              CheckResult(Outcome(DoTransition(Ephemeral, PhaseInfoFailure(System, code, ErrorText(wrapped),
                                                                           LaunchedInfo(childId))), None), Some(childId), None)
            else
              CheckResult(Outcome(UnknownTransition, Some(err)), Some(childId), None)
          case StatusOk(None) =>
            CheckResult(Outcome(LaunchedTransition(childId), None), Some(childId), None)
          case StatusOk(Some(closure)) =>
            var (outcome, written) := FromClosure(childId, closure, nCtx, store);
            CheckResult(outcome, Some(childId), written)
    }

    /** HandleAbort: kill the child execution, naming the parent execution and the reason. */
    function HandleAbort(ids: IdScheme, nCtx: NodeExecutionContext, reason: string): (r: AbortResult)
      ensures r.killed.Some? <==> ChildExecutionId(ids, nCtx).Some?
      ensures r.killed.Some? ==>
        && r.killed.value == KillRequest(ChildExecutionId(ids, nCtx).value, CascadeReason(nCtx.executionContext.name, reason))
        && r.err == launchPlan.kill(r.killed.value)
      ensures GetParentNodeExecutionId(ids, nCtx).Err? ==> r.err == Some(GetParentNodeExecutionId(ids, nCtx).error)
      ensures GetParentNodeExecutionId(ids, nCtx).Ok? && r.killed.None? ==>
        r.err == Some(ids.childExecutionId(GetParentNodeExecutionId(ids, nCtx).value, nCtx.currentAttempt).error)
    {
      match GetParentNodeExecutionId(ids, nCtx)
      case Err(e) => AbortResult(Some(e), None)
      case Ok(parentId) =>
        match ids.childExecutionId(parentId, nCtx.currentAttempt)
        case Err(e) => AbortResult(Some(e), None)
        case Ok(childId) =>
          var request := KillRequest(childId, CascadeReason(nCtx.executionContext.name, reason));
          AbortResult(launchPlan.kill(request), Some(request))
    }
  }

  /** The outcome for a non-nil closure, and the store write it made, per remote phase. */
  function FromClosure(childId: WorkflowExecutionIdentifier, closure: WorkflowClosure, nCtx: NodeExecutionContext,
                       store: StoreWrite -> Option<Error>): (Outcome, Option<StoreWrite>)
  {
    match closure.phase
    case Aborted =>
      var wErr := Opaque("launchplan execution aborted");
      var err := NodeError(RemoteChildWorkflowExecutionFailed, nCtx.nodeId, Some(wErr), "launchplan [" + childId.name + "] aborted");
      (Outcome(DoTransition(Ephemeral, PhaseInfoFailure(User, RemoteChildWorkflowExecutionFailed, ErrorText(err),
                                                        LaunchedInfo(childId))), None), None)
    case Failed =>
      var execErr := closure.error.GetOr(ExecutionError(Unknown, "LaunchPlanExecutionFailed", Text("Unknown Error")));
      (Outcome(DoTransition(Ephemeral, PhaseInfoFailureErr(execErr, LaunchedInfo(childId))), None), None)
    case Succeeded =>
      (match closure.outputs
      case None =>
        (Outcome(DoTransition(Ephemeral, PhaseInfoSuccess(Some(ExecutionInfo(Some(childId), None)))), None), None)
      case Some(outputs) =>
        var outputFile := OutputsFile(nCtx.outputDir);
        var uri := outputs.GetUri();
        var write := if uri != "" then CopyRaw(Ref(uri), outputFile) else WriteProtobuf(outputFile, outputs.GetValues());
        match store(write)
        case Some(e) =>
          var wrapped :=
            if uri != "" then
              NodeError(RuntimeExecutionError, nCtx.nodeId, Some(e), "remote output for launchplan execution was not found, uri [" + uri + "]")
            else
              NodeError(CausedByError, nCtx.nodeId, Some(e), "failed to copy outputs for child workflow");
          (Outcome(UnknownTransition, Some(wrapped)), Some(write))
        case None =>
          (Outcome(DoTransition(Ephemeral, PhaseInfoSuccess(Some(ExecutionInfo(Some(childId), Some(OutputInfo(outputFile)))))), None),
           Some(write)))
    case _ =>
      (Outcome(DoTransition(Ephemeral, PhaseInfoRunning(None)), None), None)
  }

  /** The contract of CheckLaunchPlanStatus for a non-nil closure, phase by phase. */
  ghost predicate ClosureOutcome(r: CheckResult, childId: WorkflowExecutionIdentifier, closure: WorkflowClosure,
                                 nCtx: NodeExecutionContext, store: StoreWrite -> Option<Error>)
  {
    match closure.phase
    case Aborted =>
      && r.written.None?
      && r.outcome.err.None?
      && r.outcome.transition.info.phase == Handler.Failed
      && r.outcome.transition.info.err.Some?
      && r.outcome.transition.info.err.value.kind == User
      && r.outcome.transition.info.err.value.code == RemoteChildWorkflowExecutionFailed
      && r.outcome.transition.info.info == LaunchedInfo(childId)
      // the message is the wrapped RemoteChildWorkflowExecutionFailed error, the transition Ephemeral
      && r.outcome == Outcome(DoTransition(Ephemeral, PhaseInfoFailure(User, RemoteChildWorkflowExecutionFailed,
           ErrorText(NodeError(RemoteChildWorkflowExecutionFailed, nCtx.nodeId, Some(Opaque("launchplan execution aborted")),
                               "launchplan [" + childId.name + "] aborted")),
           LaunchedInfo(childId))), None)
    case Failed =>
      && r.written.None?
      && r.outcome.err.None?
      && r.outcome.transition.info.phase == Handler.Failed
      && (closure.error.Some? ==> r.outcome.transition.info.err == closure.error)
      && (closure.error.None? ==>
            r.outcome.transition.info.err == Some(ExecutionError(Unknown, "LaunchPlanExecutionFailed", Text("Unknown Error"))))
      && r.outcome.transition.info.info == LaunchedInfo(childId)
      && r.outcome.transition.transitionType == Ephemeral
    case Succeeded =>
      (match closure.outputs
      case None =>
        && r.written.None?
        && r.outcome == Outcome(DoTransition(Ephemeral, PhaseInfoSuccess(Some(ExecutionInfo(Some(childId), None)))), None)
      case Some(outputs) =>
        var outputFile := OutputsFile(nCtx.outputDir);
        // outputs stored under a URI are copied by reference, inline values are written
        && (outputs.GetUri() != "" ==> r.written == Some(CopyRaw(Ref(outputs.GetUri()), outputFile)))
        && (outputs.GetUri() == "" ==> r.written == Some(WriteProtobuf(outputFile, outputs.GetValues())))
        && (store(r.written.value).Some? ==> r.outcome.err.Some? && r.outcome.transition == UnknownTransition)
        // a failed copy is a RuntimeExecutionError, a failed write a CausedByError, each wrapping the store's error
        && (store(r.written.value).Some? && outputs.GetUri() != "" ==>
              r.outcome.err == Some(NodeError(RuntimeExecutionError, nCtx.nodeId, store(r.written.value),
                                              "remote output for launchplan execution was not found, uri [" + outputs.GetUri() + "]")))
        && (store(r.written.value).Some? && outputs.GetUri() == "" ==>
              r.outcome.err == Some(NodeError(CausedByError, nCtx.nodeId, store(r.written.value),
                                              "failed to copy outputs for child workflow")))
        && (store(r.written.value).None? ==>
              r.outcome == Outcome(DoTransition(Ephemeral, PhaseInfoSuccess(Some(ExecutionInfo(Some(childId),
                                                                                              Some(OutputInfo(outputFile)))))), None)))
    case _ =>
      && r.written.None?
      && r.outcome == Outcome(DoTransition(Ephemeral, PhaseInfoRunning(None)), None)
  }

  // ---------------------------------------------------------------------------
  // Properties across the three entry points
  // ---------------------------------------------------------------------------

  /**
   * Re-entry safety: launching, polling and aborting all address the same child execution,
   * the one derived from the node's lineage and attempt.
   */
  lemma ReentryTargetsSameChild(h: LaunchPlanHandler, ids: IdScheme, nCtx: NodeExecutionContext,
                                store: StoreWrite -> Option<Error>, reason: string)
    ensures var start := h.StartLaunchPlan(ids, nCtx);
      start.launched.Some? ==> Some(start.launched.value.childId) == h.CheckLaunchPlanStatus(ids, nCtx, store).polled
    ensures var abort := h.HandleAbort(ids, nCtx, reason);
      && (abort.killed.Some? <==> h.CheckLaunchPlanStatus(ids, nCtx, store).polled.Some?)
      && (abort.killed.Some? ==> Some(abort.killed.value.childId) == h.CheckLaunchPlanStatus(ids, nCtx, store).polled)
  {
  }

  /**
   * A launch the remote side reports as already existing is indistinguishable from a fresh
   * one: a re-issued launch after a lost acknowledgement still reads as Running.
   */
  lemma AlreadyExistsIsLaunched(first: Executor, again: Executor, ids: IdScheme, nCtx: NodeExecutionContext)
    requires forall q :: first.launch(q) == LaunchOk
    requires forall q :: again.launch(q).LaunchError? && again.launch(q).alreadyExists
    ensures LaunchPlanHandler(first).StartLaunchPlan(ids, nCtx) == LaunchPlanHandler(again).StartLaunchPlan(ids, nCtx)
  {
  }

  /** The node phase each remote phase maps to, when every step of the mapping succeeds. */
  function NodePhaseOf(p: WorkflowPhase): (e: EPhase)
    ensures e == Handler.Failed <==> p.Aborted? || p.Failed?
    ensures e == Handler.Success <==> p.Succeeded?
    ensures e == Handler.Running <==> !p.Aborted? && !p.Failed? && !p.Succeeded?
  {
    match p
    case Aborted => Handler.Failed
    case Failed => Handler.Failed
    case Succeeded => Handler.Success
    case _ => Handler.Running
  }

  /**
   * Polling a closure gives the phase NodePhaseOf names for the remote phase, with no error,
   * unless the outputs of a succeeded execution cannot be stored.
   */
  lemma ClosurePhaseMatchesRemote(h: LaunchPlanHandler, ids: IdScheme, nCtx: NodeExecutionContext,
                                   store: StoreWrite -> Option<Error>)
    requires ChildExecutionId(ids, nCtx).Some?
    requires h.launchPlan.getStatus(ChildExecutionId(ids, nCtx).value).StatusOk?
    requires h.launchPlan.getStatus(ChildExecutionId(ids, nCtx).value).closure.Some?
    ensures var closure := h.launchPlan.getStatus(ChildExecutionId(ids, nCtx).value).closure.value;
      var r := h.CheckLaunchPlanStatus(ids, nCtx, store);
      (closure.phase != Succeeded || r.written.None? || store(r.written.value).None?) ==>
        r.outcome.err.None? && r.outcome.transition.info.phase == NodePhaseOf(closure.phase)
  {
  }

  /** Every store write goes to the node's own outputs file. */
  lemma WritesGoToOutputsFile(h: LaunchPlanHandler, ids: IdScheme, nCtx: NodeExecutionContext,
                              store: StoreWrite -> Option<Error>)
    ensures var r := h.CheckLaunchPlanStatus(ids, nCtx, store);
      r.written.Some? ==> r.written.value.destination == OutputsFile(nCtx.outputDir)
  {
  }
}
