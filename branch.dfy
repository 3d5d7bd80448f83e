/**
 * The branch handler after a branch has been selected, as fixed by
 * pkg/controller/nodes/branch/handler_test.go: the selected node is executed as a one-node DAG
 * whose only predecessor is the branch node, under an execution context whose parent is the
 * branch node's own lineage; the branch mirrors the child's phase and, on success, takes over
 * the child's data and output directories.
 *
 * Condition evaluation is not modelled: its outcome is an input of Handle.
 */
module Branch {
  import opened Wrappers
  import opened Core
  import opened ExecutionContexts
  import opened Lineage
  import opened LeafDag
  import opened NodeLookups
  import H = Handler

  /** v1alpha1.BranchNodePhase */
  datatype BranchNodePhase = BranchNodeNotYetEvaluated | BranchNodeEvaluating | BranchNodeSuccess | BranchNodeError

  /** handler.BranchNodeState: the persisted selection. */
  datatype BranchNodeState = BranchNodeState(finalizedNodeId: Option<NodeId>, phase: BranchNodePhase)

  /** A branch spec, reduced to its targets (the conditions are not modelled). */
  datatype BranchSpec = BranchSpec(thenNode: NodeId, elseIfNodes: seq<NodeId>, elseNode: Option<NodeId>)

  /** v1alpha1.ExecutableNode, reduced to its id and its branch spec (nil for other node kinds). */
  datatype Node = Node(id: NodeId, branchNode: Option<BranchSpec>)

  /** What the branch reads of the child's status through the lookup. */
  datatype ChildStatus = ChildStatus(dataDir: DataReference, outputDir: DataReference)

  type Lookup = NodeLookup<Node, ChildStatus>

  /** executors.NodeStatus: what one recursive pass reports about the child's subtree. */
  datatype DownstreamStatus = Undefined | Pending | Running | Failed(err: ExecutionError) | Complete

  /** The arguments of RecursiveNodeHandler. */
  datatype RecursionCall = RecursionCall(execContext: ExecutionContext, dag: LeafNodeDagStructure,
                                         lookup: Lookup, node: Node)

  /** The arguments of AbortHandler. */
  datatype AbortCall = AbortCall(execContext: ExecutionContext, dag: LeafNodeDagStructure,
                                 lookup: Lookup, node: Node, reason: string)

  /** executors.Node, the recursive executor the branch delegates to. */
  datatype NodeExecutor = NodeExecutor(recursiveNodeHandler: RecursionCall -> Result<DownstreamStatus, Error>,
                                       abortHandler: AbortCall -> Option<Error>)

  /** The node execution context of the branch node, reduced to what the handler reads. */
  datatype NodeExecutionContext = NodeExecutionContext(
    nodeId: NodeId,
    currentAttempt: uint32,
    executionContext: ExecutionContext,
    lookup: Lookup,              // ContextualNodeLookup()
    node: Node,                  // Node()
    state: BranchNodeState)      // NodeStateReader().GetBranchNode()

  /** The phase of the returned transition and the returned Go error. */
  datatype BranchResult = BranchResult(phase: H.EPhase, err: Option<Error>)

  datatype AbortOutcome = AbortOutcome(err: Option<Error>, call: Option<AbortCall>)

  /** One write to a node status. */
  datatype StatusUpdate = DataDirSet(dir: DataReference) | OutputDirSet(dir: DataReference)

  /** v1alpha1.ExecutableNodeStatus, the mutable status record of the branch node. */
  class NodeStatus {
    var dataDir: DataReference
    var outputDir: DataReference
    /** Every setter call so far, in order. */
    ghost var updates: seq<StatusUpdate>

    constructor (dataDir: DataReference, outputDir: DataReference)
      ensures this.dataDir == dataDir && this.outputDir == outputDir && updates == []
    {
      this.dataDir := dataDir;
      this.outputDir := outputDir;
      updates := [];
    }

    method SetDataDir(d: DataReference)
      modifies this
      ensures dataDir == d && outputDir == old(outputDir)
      ensures updates == old(updates) + [DataDirSet(d)]
    {
      dataDir := d;
      updates := updates + [DataDirSet(d)];
    }

    method SetOutputDir(d: DataReference)
      modifies this
      ensures outputDir == d && dataDir == old(dataDir)
      ensures updates == old(updates) + [OutputDirSet(d)]
    {
      outputDir := d;
      updates := updates + [OutputDirSet(d)];
    }
  }

  /** The node state writer: PutBranchNode overwrites the held state. */
  class BranchNodeStateHolder {
    var s: BranchNodeState

    constructor (s: BranchNodeState)
      ensures this.s == s
    {
      this.s := s;
    }

    method PutBranchNode(s: BranchNodeState) returns (err: Option<Error>)
      modifies this
      ensures this.s == s && err.None?
    {
      this.s := s;
      err := None;
    }
  }

  /** The context the selected node runs under: the branch node becomes its parent. */
  function DownstreamExecutionContext(fixedId: FixedLengthIdFn, nCtx: NodeExecutionContext): (r: Result<ExecutionContext, Error>)
    ensures var p := CreateParentInfo(fixedId, nCtx.executionContext.parentInfo, nCtx.nodeId, nCtx.currentAttempt);
      && (r.Ok? <==> p.Ok?)
      && (r.Ok? ==> r.value == WithParentInfo(nCtx.executionContext, p.value))
      && (r.Err? ==> r.error == p.error)
  {
    match CreateParentInfo(fixedId, nCtx.executionContext.parentInfo, nCtx.nodeId, nCtx.currentAttempt)
    case Err(e) => Err(e)
    case Ok(p) => Ok(WithParentInfo(nCtx.executionContext, p))
  }

  /** The recursion into the selected node: what RecursiveNodeHandler is called with. */
  function DownstreamCall(fixedId: FixedLengthIdFn, nCtx: NodeExecutionContext, branchTakenNode: Node): (r: Result<RecursionCall, Error>)
    ensures r.Ok? <==> DownstreamExecutionContext(fixedId, nCtx).Ok?
    ensures r.Ok? ==>
      && r.value.execContext == DownstreamExecutionContext(fixedId, nCtx).value
      // the child's parent lineage is the branch node's: CreateParentInfo(parent, branch id, attempt)
      && r.value.execContext.parentInfo ==
           Some(CreateParentInfo(fixedId, nCtx.executionContext.parentInfo, nCtx.nodeId, nCtx.currentAttempt).value)
      // a leaf DAG: the child's only predecessor is the branch node, nothing is downstream
      && r.value.dag.ToNode(branchTakenNode.id) == Ok([nCtx.nodeId])
      && (forall id :: r.value.dag.FromNode(id) == Ok([]))
      && r.value.dag.StartNode().None?
      && r.value.lookup == nCtx.lookup
      && r.value.node == branchTakenNode
  {
    match DownstreamExecutionContext(fixedId, nCtx)
    case Err(e) => Err(e)
    case Ok(ec) => Ok(RecursionCall(ec, NewLeafNodeDagStructure(branchTakenNode.id, [nCtx.nodeId]), nCtx.lookup, branchTakenNode))
  }

  /** The branch's phase for the child's reported status. */
  function PhaseForChild(outcome: Result<DownstreamStatus, Error>): (r: BranchResult)
    // an error from the recursion is returned, with phase Undefined
    ensures outcome.Err? ==> r == BranchResult(H.Undefined, Some(outcome.error))
    ensures outcome.Ok? ==> r.err.None?
    ensures outcome.Ok? ==> (r.phase == H.Success <==> outcome.value.Complete?)
    ensures outcome.Ok? ==> (r.phase == H.Failed <==> outcome.value.Failed?)
    ensures outcome.Ok? ==> (r.phase == H.Running <==> !outcome.value.Complete? && !outcome.value.Failed?)
  {
    match outcome
    case Err(e) => BranchResult(H.Undefined, Some(e))
    case Ok(Complete) => BranchResult(H.Success, None)
    case Ok(Failed(_)) => BranchResult(H.Failed, None)
    case Ok(_) => BranchResult(H.Running, None)
  }

  /** The child reports Complete for the call the branch makes. */
  ghost predicate ChildCompletes(fixedId: FixedLengthIdFn, executor: NodeExecutor, nCtx: NodeExecutionContext, branchTakenNode: Node) {
    var call := DownstreamCall(fixedId, nCtx, branchTakenNode);
    call.Ok? && executor.recursiveNodeHandler(call.value) == Ok(Complete)
  }

  /**
   * recurseDownstream: run the selected node as a leaf DAG and mirror its phase. Only when the
   * child completes are the branch's data and output directories set, once each, to the child's.
   */
  method RecurseDownstream(fixedId: FixedLengthIdFn, executor: NodeExecutor, nCtx: NodeExecutionContext,
                           nodeStatus: NodeStatus, branchTakenNode: Node) returns (r: BranchResult)
    // the child's status is read only when the child completes; a nil one is dereferenced
    requires ChildCompletes(fixedId, executor, nCtx, branchTakenNode) ==>
      nCtx.lookup.GetNodeExecutionStatus(branchTakenNode.id).Some?
    modifies nodeStatus
    ensures DownstreamCall(fixedId, nCtx, branchTakenNode).Err? ==>
      r == BranchResult(H.Undefined, Some(DownstreamCall(fixedId, nCtx, branchTakenNode).error))
    ensures DownstreamCall(fixedId, nCtx, branchTakenNode).Ok? ==>
      r == PhaseForChild(executor.recursiveNodeHandler(DownstreamCall(fixedId, nCtx, branchTakenNode).value))
    ensures ChildCompletes(fixedId, executor, nCtx, branchTakenNode) ==>
      var child := nCtx.lookup.GetNodeExecutionStatus(branchTakenNode.id).value;
      && nodeStatus.dataDir == child.dataDir
      && nodeStatus.outputDir == child.outputDir
      && nodeStatus.updates == old(nodeStatus.updates) + [DataDirSet(child.dataDir), OutputDirSet(child.outputDir)]
    ensures !ChildCompletes(fixedId, executor, nCtx, branchTakenNode) ==> unchanged(nodeStatus)
  {
    var call := DownstreamCall(fixedId, nCtx, branchTakenNode);
    if call.Err? {
      return BranchResult(H.Undefined, Some(call.error));
    }
    var downstream := executor.recursiveNodeHandler(call.value);
    if downstream == Ok(Complete) {
      var child := nCtx.lookup.GetNodeExecutionStatus(branchTakenNode.id).value;
      nodeStatus.SetDataDir(child.dataDir);
      nodeStatus.SetOutputDir(child.outputDir);
    }
    r := PhaseForChild(downstream);
  }

  /** The node the branch runs: the persisted selection if there is one, else a fresh evaluation. */
  function Target(nCtx: NodeExecutionContext, evaluation: Result<NodeId, Error>): (r: Result<NodeId, Error>)
    ensures nCtx.state.finalizedNodeId.Some? ==> r == Ok(nCtx.state.finalizedNodeId.value)
    ensures nCtx.state.finalizedNodeId.None? ==> r == evaluation
  {
    match nCtx.state.finalizedNodeId
    case Some(id) => Ok(id)
    case None => evaluation
  }

  /**
   * A selection, once persisted, is final: a later pass recurses into the same node whatever a
   * fresh evaluation of the conditions would say.
   */
  lemma SelectionIsSticky(nCtx: NodeExecutionContext, id: NodeId, evaluation: Result<NodeId, Error>,
                          later: Result<NodeId, Error>)
    requires evaluation == Ok(id)
    ensures var persisted := nCtx.(state := BranchNodeState(Some(id), BranchNodeSuccess));
      Target(persisted, later) == Target(nCtx.(state := BranchNodeState(None, BranchNodeNotYetEvaluated)), evaluation)
  {
  }

  /** The node Handle recurses into: the target, when the node is a branch and the lookup holds it. */
  function TakenNode(nCtx: NodeExecutionContext, evaluation: Result<NodeId, Error>): (n: Option<Node>)
    ensures n.Some? <==>
      nCtx.node.branchNode.Some? && Target(nCtx, evaluation).Ok? && nCtx.lookup.GetNode(Target(nCtx, evaluation).value).Some?
    ensures n.Some? ==> n == nCtx.lookup.GetNode(Target(nCtx, evaluation).value)
  {
    if nCtx.node.branchNode.None? then None
    else
      match Target(nCtx, evaluation)
      case Err(_) => None
      case Ok(id) => nCtx.lookup.GetNode(id)
  }

  /**
   * Handle. A node without a branch spec fails, without an error. Otherwise the branch runs
   * its target; a fresh selection is first persisted as BranchNodeSuccess (or the failure
   * to select as BranchNodeError), and a persisted one is never evaluated again.
   */
  method Handle(fixedId: FixedLengthIdFn, executor: NodeExecutor, nCtx: NodeExecutionContext, nodeStatus: NodeStatus,
                stateWriter: BranchNodeStateHolder, evaluation: Result<NodeId, Error>) returns (r: BranchResult)
    // as for RecurseDownstream: the taken child's status is read only when it completes
    requires TakenNode(nCtx, evaluation).Some? && ChildCompletes(fixedId, executor, nCtx, TakenNode(nCtx, evaluation).value) ==>
      nCtx.lookup.GetNodeExecutionStatus(TakenNode(nCtx, evaluation).value.id).Some?
    modifies nodeStatus, stateWriter
    // the persisted selection
    ensures nCtx.node.branchNode.None? ==> r == BranchResult(H.Failed, None) && unchanged(stateWriter)
    ensures nCtx.node.branchNode.Some? && nCtx.state.finalizedNodeId.Some? ==> unchanged(stateWriter)
    ensures nCtx.node.branchNode.Some? && nCtx.state.finalizedNodeId.None? ==>
      stateWriter.s == (match evaluation
                        case Ok(id) => BranchNodeState(Some(id), BranchNodeSuccess)
                        case Err(_) => BranchNodeState(None, BranchNodeError))
    // no node to run (no branch spec, no selection, or a target the lookup does not hold): Failed, nil error
    ensures TakenNode(nCtx, evaluation).None? ==> r == BranchResult(H.Failed, None) && unchanged(nodeStatus)
    // otherwise exactly recurseDownstream on the taken node
    ensures TakenNode(nCtx, evaluation).Some? ==>
      var taken := TakenNode(nCtx, evaluation).value;
      && (DownstreamCall(fixedId, nCtx, taken).Err? ==>
            r == BranchResult(H.Undefined, Some(DownstreamCall(fixedId, nCtx, taken).error)))
      && (DownstreamCall(fixedId, nCtx, taken).Ok? ==>
            r == PhaseForChild(executor.recursiveNodeHandler(DownstreamCall(fixedId, nCtx, taken).value)))
    ensures TakenNode(nCtx, evaluation).Some? && ChildCompletes(fixedId, executor, nCtx, TakenNode(nCtx, evaluation).value) ==>
      var child := nCtx.lookup.GetNodeExecutionStatus(TakenNode(nCtx, evaluation).value.id).value;
      && nodeStatus.dataDir == child.dataDir
      && nodeStatus.outputDir == child.outputDir
      && nodeStatus.updates == old(nodeStatus.updates) + [DataDirSet(child.dataDir), OutputDirSet(child.outputDir)]
    ensures !(TakenNode(nCtx, evaluation).Some? && ChildCompletes(fixedId, executor, nCtx, TakenNode(nCtx, evaluation).value)) ==>
      unchanged(nodeStatus)
  {
    if nCtx.node.branchNode.None? {
      return BranchResult(H.Failed, None);
    }
    if nCtx.state.finalizedNodeId.None? {
      var _ := stateWriter.PutBranchNode(
        match evaluation
        case Ok(id) => BranchNodeState(Some(id), BranchNodeSuccess)
        case Err(_) => BranchNodeState(None, BranchNodeError));
    }
    var target := Target(nCtx, evaluation);
    if target.Err? {
      return BranchResult(H.Failed, None);
    }
    var taken := nCtx.lookup.GetNode(target.value);
    if taken.None? {
      return BranchResult(H.Failed, None);
    }
    r := RecurseDownstream(fixedId, executor, nCtx, nodeStatus, taken.value);
  }

  /**
   * Abort: nothing to do unless a branch was taken; otherwise the taken node is aborted as a
   * leaf DAG under the same derived context the recursion uses.
   */
  function Abort(fixedId: FixedLengthIdFn, executor: NodeExecutor, nCtx: NodeExecutionContext, reason: string): (r: AbortOutcome)
    ensures nCtx.state.phase != BranchNodeSuccess || nCtx.state.finalizedNodeId.None? ==> r == AbortOutcome(None, None)
    // the persisted node is not in the lookup
    ensures nCtx.state.phase == BranchNodeSuccess && nCtx.state.finalizedNodeId.Some? &&
            nCtx.lookup.GetNode(nCtx.state.finalizedNodeId.value).None? ==>
      r == AbortOutcome(Some(NodeError("DownstreamNodeNotFoundError", nCtx.nodeId, None,
                                       "Downstream node [" + nCtx.state.finalizedNodeId.value + "] not found")), None)
    // the lineage of the derived context cannot be computed
    ensures nCtx.state.phase == BranchNodeSuccess && nCtx.state.finalizedNodeId.Some? &&
            nCtx.lookup.GetNode(nCtx.state.finalizedNodeId.value).Some? && DownstreamExecutionContext(fixedId, nCtx).Err? ==>
      r == AbortOutcome(Some(DownstreamExecutionContext(fixedId, nCtx).error), None)
    // a taken node is aborted exactly when the derived context exists
    ensures nCtx.state.phase == BranchNodeSuccess && nCtx.state.finalizedNodeId.Some? &&
            nCtx.lookup.GetNode(nCtx.state.finalizedNodeId.value).Some? && DownstreamExecutionContext(fixedId, nCtx).Ok? ==>
      r.call.Some?
    ensures r.call.Some? ==>
      && nCtx.state.phase == BranchNodeSuccess
      && nCtx.state.finalizedNodeId.Some?
      && nCtx.lookup.GetNode(nCtx.state.finalizedNodeId.value).Some?
      && var taken := nCtx.lookup.GetNode(nCtx.state.finalizedNodeId.value).value;
         && DownstreamCall(fixedId, nCtx, taken) == Ok(RecursionCall(r.call.value.execContext, r.call.value.dag, nCtx.lookup, taken))
         && r.call.value.lookup == nCtx.lookup
         && r.call.value.node == taken
         && r.call.value.reason == reason
         && r.err == executor.abortHandler(r.call.value)
  {
    if nCtx.state.phase != BranchNodeSuccess || nCtx.state.finalizedNodeId.None? then
      AbortOutcome(None, None)
    else
      var finalNodeId := nCtx.state.finalizedNodeId.value;
      match nCtx.lookup.GetNode(finalNodeId)
      case None =>
        AbortOutcome(Some(NodeError("DownstreamNodeNotFoundError", nCtx.nodeId, None,
                                    "Downstream node [" + finalNodeId + "] not found")), None)
      case Some(taken) =>
        match DownstreamExecutionContext(fixedId, nCtx)
        case Err(e) => AbortOutcome(Some(e), None)
        case Ok(ec) =>
          var call := AbortCall(ec, NewLeafNodeDagStructure(taken.id, [nCtx.nodeId]), nCtx.lookup, taken, reason);
          AbortOutcome(executor.abortHandler(call), Some(call))
  }

  /** Setup: the branch handler needs no setup and never fails it. */
  function Setup(): (r: Option<Error>)
    ensures r.None?
  {
    None
  }
}
