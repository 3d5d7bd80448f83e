/**
 * The leaf-node view of a DAG (pkg/controller/executors/dag_structure.go): a single known node
 * reached from a fixed list of predecessors, with no successors and no start node. It lets a
 * handler recurse into one selected node with the same traversal as a whole workflow.
 */
module LeafDag {
  import opened Wrappers
  import opened Core

  /** The error `fmt.Errorf("unknown Node ID [%s]", id)`. */
  function UnknownNodeError(id: NodeId): Error {
    Opaque("unknown Node ID [" + id + "]")
  }

  /** leafNodeDAGStructure, an immutable value. */
  datatype LeafNodeDagStructure = LeafNodeDagStructure(parentNodes: seq<NodeId>, currentNode: NodeId) {

    /** There is no start node: this view is never a traversal root. */
    function StartNode(): (r: Option<NodeId>)
      ensures r.None?
    {
      None
    }

    /** Upstream edges: known only for the leaf, whose predecessors are the stored list. */
    function ToNode(id: NodeId): (r: Result<seq<NodeId>, Error>)
      ensures r.Ok? <==> id == currentNode
      ensures r.Ok? ==> r.value == parentNodes
      ensures r.Err? ==> r.error == UnknownNodeError(id)
    {
      if id == currentNode then Ok(parentNodes) else Err(UnknownNodeError(id))
    }

    /** Downstream edges: none, for every id, known or not. */
    function FromNode(id: NodeId): (r: Result<seq<NodeId>, Error>)
      ensures r == Ok([])
    {
      Ok([])
    }
  }

  /** NewLeafNodeDAGStructure(leafNode, parentNodes...). */
  function NewLeafNodeDagStructure(leafNode: NodeId, parentNodes: seq<NodeId>): (d: LeafNodeDagStructure)
    ensures d.ToNode(leafNode) == Ok(parentNodes)
    ensures forall id :: id != leafNode ==> d.ToNode(id) == Err(UnknownNodeError(id))
    ensures forall id :: d.FromNode(id) == Ok([])
    ensures d.StartNode() == None
  {
    LeafNodeDagStructure(parentNodes, leafNode)
  }

  /**
   * The view is determined by what it answers: two leaf views that agree on ToNode for
   * every id are the same view. So the constructor loses nothing and nothing else is stored.
   */
  lemma LeafViewDeterminedByQueries(d1: LeafNodeDagStructure, d2: LeafNodeDagStructure)
    requires forall id :: d1.ToNode(id) == d2.ToNode(id)
    ensures d1 == d2
  {
    assert d1.ToNode(d1.currentNode).Ok?;
    assert d2.ToNode(d1.currentNode).Ok?;
  }
}
