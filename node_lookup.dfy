/**
 * Node lookup (the contract fixed by pkg/controller/executors/node_lookup_test.go): a node id
 * maps to its static definition and to its runtime status. The contextual lookup delegates to
 * a node getter and a status getter; the test lookup reads two fixed maps.
 */
module NodeLookups {
  import opened Wrappers
  import opened Core

  /**
   * NodeLookup over node definitions N and node statuses S. A status getter creates a status
   * on read, so it always answers; a fixed map may not hold the id, which reads as nil.
   */
  datatype NodeLookup<N, S> =
    | ContextualNodeLookup(nodeGetter: NodeId -> Option<N>, statusGetter: NodeId -> S)
    | TestNodeLookup(nodes: map<NodeId, N>, statuses: map<NodeId, S>)
  {
    /** GetNode(id) returns (node, found); `None` is (nil, false). */
    function GetNode(id: NodeId): Option<N> {
      match this
      case ContextualNodeLookup(ng, _) => ng(id)
      case TestNodeLookup(nodes, _) => if id in nodes then Some(nodes[id]) else None
    }

    /** GetNodeExecutionStatus(ctx, id); `None` is a nil status. */
    function GetNodeExecutionStatus(id: NodeId): Option<S> {
      match this
      case ContextualNodeLookup(_, sg) => Some(sg(id))
      case TestNodeLookup(_, statuses) => if id in statuses then Some(statuses[id]) else None
    }
  }

  /** NewNodeLookup: a lookup that keeps exactly the two getters it is given and answers through them. */
  function NewNodeLookup<N, S>(nodeGetter: NodeId -> Option<N>, statusGetter: NodeId -> S): (l: NodeLookup<N, S>)
    ensures l.ContextualNodeLookup?
    ensures forall id :: l.GetNode(id) == nodeGetter(id)
    ensures forall id :: l.GetNodeExecutionStatus(id) == Some(statusGetter(id))
  {
    ContextualNodeLookup(nodeGetter, statusGetter)
  }

  /** NewTestNodeLookup: a lookup backed by two fixed maps. */
  function NewTestNodeLookup<N, S>(nodes: map<NodeId, N>, statuses: map<NodeId, S>): (l: NodeLookup<N, S>)
    ensures forall id :: id in nodes ==> l.GetNode(id) == Some(nodes[id])
    ensures forall id :: id !in nodes ==> l.GetNode(id).None?
    ensures forall id :: id in statuses ==> l.GetNodeExecutionStatus(id) == Some(statuses[id])
  {
    TestNodeLookup(nodes, statuses)
  }

  /**
   * A status lookup for an id the fixture does not hold does not fail, and what it returns
   * is none of the stored statuses.
   */
  lemma MissingStatusIsNotStored<N, S>(nodes: map<NodeId, N>, statuses: map<NodeId, S>, id: NodeId)
    requires id !in statuses
    ensures forall k :: k in statuses ==> NewTestNodeLookup(nodes, statuses).GetNodeExecutionStatus(id) != Some(statuses[k])
  {
  }
}
