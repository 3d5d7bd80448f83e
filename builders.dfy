/**
 * The compiler's builder objects (pkg/compiler/builders.go). A workflow builder is a value
 * whose indexes are read by key; the index of all sub-workflows is a map shared by every copy
 * of the builder, so an update through one copy is seen through all. A node builder wraps a
 * pointer to a core node and carries the fields the compiler computes; its setters update it
 * in place.
 */
module Builders {
  import opened Wrappers
  import opened Core

  /** core.Binding, reduced to the variable it binds and a rendering of its value. */
  datatype Binding = Binding(variable: string, binding: string)

  /** core.Node, updated in place through the node builders that wrap it. */
  class CoreNode {
    var id: NodeId
    var inputs: seq<Binding>

    constructor (id: NodeId, inputs: seq<Binding>)
      ensures this.id == id && this.inputs == inputs
    {
      this.id := id;
      this.inputs := inputs;
    }
  }

  /** core.WorkflowTemplate: its id and its failure node, a pointer that may be nil. */
  datatype WorkflowTemplate = WorkflowTemplate(id: Identifier, failureNode: CoreNode?)

  /** core.CompiledWorkflow; GetTemplate() of a nil pointer is nil. */
  datatype CompiledWorkflow = CompiledWorkflow(template: Option<WorkflowTemplate>)

  /** common.InterfaceProvider of a launch plan. */
  datatype InterfaceProvider = InterfaceProvider(id: Identifier, iface: TypedInterface)

  /** taskBuilder: a task template seen through the compiler's Task interface. */
  datatype TaskBuilder = TaskBuilder(flyteTask: TaskTemplate) {

    function GetCoreTask(): (t: TaskTemplate)
    {
      flyteTask
    }

    /** GetID: the task's id, or the zero Identifier when the template has none. */
    function GetId(): (id: Identifier)
      ensures flyteTask.id.Some? ==> id == flyteTask.id.value
      ensures flyteTask.id.None? ==> id == ZeroIdentifier
    {
      match flyteTask.id
      case Some(i) => i
      case None => ZeroIdentifier
    }
  }

  /** A task without an id and a task whose id is the zero Identifier present the same id. */
  lemma GetIdZeroExactly(t: TaskBuilder)
    ensures t.GetId() == ZeroIdentifier <==> t.flyteTask.id.None? || t.flyteTask.id == Some(ZeroIdentifier)
  {
  }

  /** common.WorkflowIndex: a Go map, shared by reference between builder copies. */
  class WorkflowIndex {
    var workflows: map<string, CompiledWorkflow>

    constructor (workflows: map<string, CompiledWorkflow>)
      ensures this.workflows == workflows
    {
      this.workflows := workflows;
    }
  }

  /** nodeBuilder: a core node plus the sub-workflow, task and interface computed for it. */
  class NodeBuilder {
    /** The embedded *core.Node; SetID and SetInputs write through it. */
    const flyteNode: CoreNode?
    var subWorkflow: Option<WorkflowBuilder>
    var task: Option<TaskBuilder>
    var iface: Option<TypedInterface>

    /** &nodeBuilder{flyteNode: n}: every computed field is nil. */
    constructor (n: CoreNode?)
      ensures flyteNode == n && subWorkflow.None? && task.None? && iface.None?
    {
      flyteNode := n;
      subWorkflow := None;
      task := None;
      iface := None;
    }

    function GetTask(): Option<TaskBuilder>
      reads this
    {
      task
    }

    function GetSubWorkflow(): Option<WorkflowBuilder>
      reads this
    {
      subWorkflow
    }

    function GetInterface(): Option<TypedInterface>
      reads this
    {
      iface
    }

    function GetCoreNode(): (n: CoreNode?)
    {
      flyteNode
    }

    method SetTask(t: Option<TaskBuilder>)
      modifies this
      ensures GetTask() == t
      ensures GetSubWorkflow() == old(GetSubWorkflow()) && GetInterface() == old(GetInterface())
    {
      task := t;
    }

    method SetInterface(i: Option<TypedInterface>)
      modifies this
      ensures GetInterface() == i
      ensures GetTask() == old(GetTask()) && GetSubWorkflow() == old(GetSubWorkflow())
    {
      iface := i;
    }

    method SetSubWorkflow(wf: Option<WorkflowBuilder>)
      modifies this
      ensures GetSubWorkflow() == wf
      ensures GetTask() == old(GetTask()) && GetInterface() == old(GetInterface())
    {
      subWorkflow := wf;
    }

    /** SetInputs overwrites the wrapped node's inputs, and nothing else. */
    method SetInputs(inputs: seq<Binding>)
      requires flyteNode != null
      modifies flyteNode
      ensures flyteNode.inputs == inputs && flyteNode.id == old(flyteNode.id)
    {
      flyteNode.inputs := inputs;
    }

    /** SetID overwrites the wrapped node's id, and nothing else. */
    method SetId(id: NodeId)
      requires flyteNode != null
      modifies flyteNode
      ensures flyteNode.id == id && flyteNode.inputs == old(flyteNode.inputs)
    {
      flyteNode.id := id;
    }
  }

  /**
   * workflowBuilder, a value: its methods take the builder by value, and only the shared
   * sub-workflow index is ever written. Indexes keyed by an Identifier use its String()
   * rendering, `idString`, which lies outside this model.
   */
  datatype WorkflowBuilder = WorkflowBuilder(
    coreWorkflow: Option<CompiledWorkflow>,
    launchPlans: map<string, InterfaceProvider>,
    tasks: map<string, TaskBuilder>,
    downstreamNodes: map<string, set<string>>,
    upstreamNodes: map<string, set<string>>,
    nodes: map<NodeId, NodeBuilder>,
    allLaunchPlans: map<string, InterfaceProvider>,
    allTasks: map<string, TaskBuilder>,
    allSubWorkflows: WorkflowIndex,
    idString: Identifier -> string)
  {
    function GetCoreWorkflow(): (w: Option<CompiledWorkflow>)
    {
      coreWorkflow
    }

    function GetNodes(): (n: map<NodeId, NodeBuilder>)
    {
      nodes
    }

    function GetTasks(): (t: map<string, TaskBuilder>)
    {
      tasks
    }

    function GetDownstreamNodes(): (d: map<string, set<string>>)
    {
      downstreamNodes
    }

    function GetUpstreamNodes(): (u: map<string, set<string>>)
    {
      upstreamNodes
    }

    /** GetNode(id) returns (node, found); `None` is (nil, false). */
    function GetNode(id: NodeId): (r: Option<NodeBuilder>)
      ensures r.Some? <==> id in nodes
      ensures r.Some? ==> r.value == nodes[id]
    {
      if id in nodes then Some(nodes[id]) else None
    }

    /** GetTask looks the task up by the String() rendering of its id. */
    function GetTask(id: Identifier): (r: Option<TaskBuilder>)
      ensures r.Some? <==> idString(id) in tasks
      ensures r.Some? ==> r.value == tasks[idString(id)]
    {
      if idString(id) in tasks then Some(tasks[idString(id)]) else None
    }

    /** GetLaunchPlan looks the launch plan up by the String() rendering of its id. */
    function GetLaunchPlan(id: Identifier): (r: Option<InterfaceProvider>)
      ensures r.Some? <==> idString(id) in launchPlans
      ensures r.Some? ==> r.value == launchPlans[idString(id)]
    {
      if idString(id) in launchPlans then Some(launchPlans[idString(id)]) else None
    }

    /** GetSubWorkflow reads the shared index. */
    function GetSubWorkflow(id: Identifier): (r: Option<CompiledWorkflow>)
      reads allSubWorkflows
      ensures r.Some? <==> idString(id) in allSubWorkflows.workflows
      ensures r.Some? ==> r.value == allSubWorkflows.workflows[idString(id)]
    {
      if idString(id) in allSubWorkflows.workflows then Some(allSubWorkflows.workflows[idString(id)]) else None
    }

    /**
     * UpdateSubWorkflow writes into the shared index: afterwards the id reads back the new
     * workflow, and every id with a different key reads what it read before.
     */
    method UpdateSubWorkflow(id: Identifier, compiledWorkflow: CompiledWorkflow)
      modifies allSubWorkflows
      ensures allSubWorkflows.workflows == old(allSubWorkflows.workflows)[idString(id) := compiledWorkflow]
      ensures GetSubWorkflow(id) == Some(compiledWorkflow)
      ensures forall other :: idString(other) != idString(id) ==> GetSubWorkflow(other) == old(GetSubWorkflow(other))
    {
      allSubWorkflows.workflows := allSubWorkflows.workflows[idString(id) := compiledWorkflow];
    }

    /** NewNodeBuilder: a fresh node builder around the given node pointer. */
    method NewNodeBuilder(n: CoreNode?) returns (b: NodeBuilder)
      ensures fresh(b)
      ensures b.flyteNode == n && b.GetTask().None? && b.GetSubWorkflow().None? && b.GetInterface().None?
    {
      b := new NodeBuilder(n);
    }

    /** The workflow has a template with a failure node. */
    predicate HasFailureNode() {
      coreWorkflow.Some? && coreWorkflow.value.template.Some? && coreWorkflow.value.template.value.failureNode != null
    }

    /** GetFailureNode: a fresh builder around the template's failure node, or nil without one. */
    method GetFailureNode() returns (b: NodeBuilder?)
      ensures b != null <==> HasFailureNode()
      ensures b != null ==>
        && fresh(b)
        && b.flyteNode == coreWorkflow.value.template.value.failureNode
        && b.GetTask().None? && b.GetSubWorkflow().None? && b.GetInterface().None?
    {
      var cw := GetCoreWorkflow();
      if cw.Some? && cw.value.template.Some? && cw.value.template.value.failureNode != null {
        b := NewNodeBuilder(cw.value.template.value.failureNode);
      } else {
        b := null;
      }
    }
  }

  /**
   * Copies of a builder share the sub-workflow index: an update made through one copy is read
   * back through another.
   */
  method UpdateVisibleThroughCopy(w: WorkflowBuilder, copy: WorkflowBuilder, id: Identifier, wf: CompiledWorkflow)
    requires copy.allSubWorkflows == w.allSubWorkflows && copy.idString == w.idString
    modifies w.allSubWorkflows
    ensures copy.GetSubWorkflow(id) == Some(wf)
  {
    w.UpdateSubWorkflow(id, wf);
  }
}
