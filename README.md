# flytepropeller node execution, modelled in Dafny

This project models the deterministic decision logic of flytepropeller's node execution engine:

- **Leaf DAG view.** This is the one-node graph a branch recurses into.
- **Lineage.** These are the unique ids of node occurrences: a parent's unique id, its attempt and the local node id go into a length-bounded id function.
- **Branch handler.** This part runs after a branch has been selected. The branch runs the chosen node under its own lineage and mirrors that node's phase. When the chosen node completes, the branch takes over its data and output directories.
- **Launch-plan handler.** It starts a remote child execution, polls it and aborts it. It maps the remote phase onto the node and materialises the child's outputs.
- **Catalog gate.** It sits around a task. Before the task runs, it serves cached outputs. Afterwards, it validates and commits the outputs and writes them to the catalog.
- **No-op catalog.**
- **Node lookup.**
- **Compiler builders.** These are the workflow builder's keyed indexes and the node builder's setters.

The model has one module per source file, plus shared value modules:

- `Wrappers`: Option and Result.
- `Core`: identifiers, errors, storage references and task templates.
- `ExecutionContexts`: lineage records and the execution context.
- `Handler`: phases and transitions.
- `PluginIo`: the plugin I/O readers.

The code that is pure case analysis is modelled as functions. The branch node's status record and the branch state writer are updated in place, so they are classes with `modifies` clauses. The same holds for the compiler's node builder, its wrapped core node and the shared sub-workflow index. The workflow builder is passed by value, as in the source, so it is a datatype. The sub-workflow index it holds is a reference, so an update made through one copy of the builder is seen through every copy.

Several collaborators are outside this model and appear as function-typed parameters:

- the fixed-length id function;
- the child execution id function;
- `Identifier.String()`;
- error-message trimming;
- the remote launch backend (Launch, GetStatus, Kill);
- the data store;
- the catalog client;
- the plugin registry;
- the branch's recursive node executor.

Each result records the requests and writes that were issued, so every contract states which side effects happen in which case.

## Model

| member | source | states |
|---|---|---|
| `Core.WrapOrNil` | pkg/controller/nodes/task/pre_post_execution.go:54-58 | Wrapping a nil error gives nil; wrapping a real error keeps it as the cause. |
| `ExecutionContexts.WithParentInfo` | pkg/controller/nodes/branch/handler_test.go:164-165 | The derived context has the new parent and the same execution name and event version. |
| `Lineage.Itoa` | pkg/controller/nodes/common/utils.go:23 | The rendering is a canonical decimal numeral: digits only, non-empty, no leading zero, and it starts with '0' exactly for 0. |
| `Lineage.ItoaRoundTrip` | pkg/controller/nodes/common/utils.go:23 | Reading the decimal rendering back gives the attempt number. |
| `Lineage.ItoaInjective` | pkg/controller/nodes/common/utils.go:23 | Distinct attempts render to distinct strings. |
| `Lineage.IdParts` | pkg/controller/nodes/common/utils.go:18-24 | Without a parent, the parent-id and attempt parts are empty. With a parent, they are its unique id and the decimal of its attempt. The last part is the node id. |
| `Lineage.IdPartsInjective` | pkg/controller/nodes/common/utils.go:17-27 | Distinct (parent, node id) lineages give distinct part lists. This includes a nil parent against a parent with an empty unique id. |
| `Lineage.RetryChangesIdParts` | pkg/controller/nodes/common/utils.go:13-24 | A retry of the parent changes the parts of every child id. |
| `Lineage.GenerateUniqueId` | pkg/controller/nodes/common/utils.go:11-27 | The id function is called with length 20 and the parts (parent unique id, parent attempt, node id), with "" for a nil parent. |
| `Lineage.CreateParentInfo` | pkg/controller/nodes/common/utils.go:29-37 | The record's unique id is GenerateUniqueId(grandparent, node id) and its attempt is the given parent attempt. When generation fails, the same error is returned. |
| `LeafDag.LeafNodeDagStructure.StartNode` | pkg/controller/executors/dag_structure.go:25-27 | There is never a start node. |
| `LeafDag.LeafNodeDagStructure.ToNode` | pkg/controller/executors/dag_structure.go:29-34 | The leaf succeeds exactly, with the stored predecessor list. Any other id gets an "unknown Node ID [id]" error. |
| `LeafDag.LeafNodeDagStructure.FromNode` | pkg/controller/executors/dag_structure.go:36-38 | Every id, known or not, gets an empty list and no error. |
| `LeafDag.NewLeafNodeDagStructure` | pkg/controller/executors/dag_structure.go:40-44 | The view answers ToNode(leaf) with the given predecessors in order, errors for every other id, has no successors and has no start node. |
| `LeafDag.LeafViewDeterminedByQueries` | pkg/controller/executors/dag_structure.go:20-23 | Two leaf views that answer ToNode alike are the same value. |
| `NodeLookups.NewNodeLookup` | pkg/controller/executors/node_lookup_test.go:21-29 | The lookup is contextual and answers through exactly the node getter and status getter it was given. |
| `NodeLookups.NewTestNodeLookup` | pkg/controller/executors/node_lookup_test.go:31-43 | A key in the node map gives the stored node, and an absent key is not found. A key in the status map gives the stored status. |
| `NodeLookups.MissingStatusIsNotStored` | pkg/controller/executors/node_lookup_test.go:44 | A status lookup for an absent key does not fail and returns none of the stored statuses. |
| `Branch.NodeStatus.SetDataDir` | pkg/controller/nodes/branch/handler_test.go:186-193 | Sets the data directory, leaves the output directory alone and logs one write. |
| `Branch.NodeStatus.SetOutputDir` | pkg/controller/nodes/branch/handler_test.go:186-193 | Sets the output directory, leaves the data directory alone and logs one write. |
| `Branch.BranchNodeStateHolder.PutBranchNode` | pkg/controller/nodes/branch/handler_test.go:38-41 | Overwrites the held branch state and never fails. |
| `Branch.DownstreamExecutionContext` | pkg/controller/nodes/branch/handler_test.go:164-165 | The child's context is the branch's context with parent CreateParentInfo(branch parent, branch node id, current attempt). A lineage failure is returned. |
| `Branch.DownstreamCall` | pkg/controller/nodes/branch/handler_test.go:164-183 | The recursion receives the derived context, a leaf DAG with ToNode(child) = [branch node id] and empty FromNode for every id, the branch's own lookup and the chosen node. |
| `Branch.PhaseForChild` | pkg/controller/nodes/branch/handler_test.go:148-157 | A recursion error gives Undefined with that error. Complete gives Success, Failed gives Failed, and every other status gives Running, all without an error. |
| `Branch.RecurseDownstream` | pkg/controller/nodes/branch/handler_test.go:159-202 | The phase is the child's mapped phase. Exactly when the child completes, the data and output directories are set once each to the child's, in that order. |
| `Branch.Target` | pkg/controller/nodes/branch/handler_test.go:62-66 | A persisted selection wins over a fresh evaluation. |
| `Branch.SelectionIsSticky` | pkg/controller/nodes/branch/handler_test.go:110-114 | Once a selection is persisted, later passes run the same node whatever a fresh evaluation says. |
| `Branch.Handle` | pkg/controller/nodes/branch/handler_test.go:335-354 | A node without a branch spec fails with a nil error and changes nothing. Otherwise a fresh selection is persisted as BranchNodeSuccess, or a failed one as BranchNodeError. With no node to run it fails with a nil error and leaves the status alone. Otherwise it behaves exactly as the recursion into the target: a lineage error is returned as Undefined, the phase is the child's mapped phase, and the directories are copied exactly when the child completes. |
| `Branch.Abort` | pkg/controller/nodes/branch/handler_test.go:267-296 | Without a successful selection nothing is aborted and no error is returned. A persisted node missing from the lookup gives a not-found error, and a lineage failure gives that error, with no abort in either case. Otherwise the taken node is always aborted with the recursion's derived context, leaf DAG and lookup, and the abort handler's error is returned. |
| `Branch.Setup` | pkg/controller/nodes/branch/handler_test.go:299-304 | Setup never fails. |
| `LaunchPlan.GetParentNodeExecutionId` | pkg/controller/nodes/subworkflow/launchplan.go:23-38 | The execution id is copied. The node id is the lineage unique id unless the event version is 0, when it is the raw node id. A lineage failure is returned. |
| `LaunchPlan.ParentIdIsLineageId` | pkg/controller/nodes/subworkflow/launchplan.go:23-38 | From event version 1 on, the node id registered for the child execution is the unique id in the lineage the node hands down to its own children, and one fails exactly when the other does, with the same error. |
| `LaunchPlan.LaunchPlanHandler.StartLaunchPlan` | pkg/controller/nodes/subworkflow/launchplan.go:40-83 | An input failure is a SYSTEM failure, and a child-id failure is a SYSTEM failure "failed to create unique ID". A launch is requested exactly when the inputs and both ids exist, with exactly those arguments. Success or AlreadyExists is Running with the child id. A user error is a USER failure. Any other error is returned. |
| `LaunchPlan.LaunchPlanHandler.CheckLaunchPlanStatus` | pkg/controller/nodes/subworkflow/launchplan.go:85-167 | The node's own child id is polled. NotFound is a SYSTEM failure with a nil error, other errors are returned, and a nil closure is Running. Each remote phase maps as ClosureOutcome states: ABORTED is an Ephemeral USER RemoteChildWorkflowExecutionFailed failure whose message is that wrapped error. A failed output copy is returned as a RuntimeExecutionError and a failed write as a CausedByError. Storage is written only on SUCCEEDED with outputs. |
| `LaunchPlan.LaunchPlanHandler.HandleAbort` | pkg/controller/nodes/subworkflow/launchplan.go:169-183 | The node's child execution is killed with the cascade reason naming the parent execution and the given reason. The kill error, or an id error, is returned. |
| `LaunchPlan.ReentryTargetsSameChild` | pkg/controller/nodes/subworkflow/launchplan.go:47-54 | Launch, poll and kill all address the same child execution. |
| `LaunchPlan.AlreadyExistsIsLaunched` | pkg/controller/nodes/subworkflow/launchplan.go:65-82 | A launch answered with AlreadyExists gives exactly the result of a successful launch. |
| `LaunchPlan.NodePhaseOf` | pkg/controller/nodes/subworkflow/launchplan.go:122-166 | ABORTED and FAILED map to Failed, SUCCEEDED maps to Success, and every other remote phase maps to Running. |
| `LaunchPlan.ClosurePhaseMatchesRemote` | pkg/controller/nodes/subworkflow/launchplan.go:122-166 | A polled closure yields NodePhaseOf(remote phase) without an error, unless storing a succeeded child's outputs fails. |
| `LaunchPlan.WritesGoToOutputsFile` | pkg/controller/nodes/subworkflow/launchplan.go:141-159 | Every store write targets the node's outputs file. |
| `Catalog.NoopCatalog.Get` | pkg/controller/nodes/task/catalog/noop_catalog.go:11-18 | Never fails. Returns no outputs, status CACHE_DISABLED and no metadata. |
| `Catalog.NoopCatalog.Put` | pkg/controller/nodes/task/catalog/noop_catalog.go:20-22 | Never fails. Returns status CACHE_DISABLED and no metadata. |
| `Catalog.NoopIgnoresArguments` | pkg/controller/nodes/task/catalog/noop_catalog.go:16-22 | Both answers are independent of key, reader and metadata. |
| `Catalog.NoopNeverMisses` | pkg/controller/nodes/task/catalog/noop_catalog.go:11-22 | Get and Put report the same disabled status, never a miss. |
| `PrePostExecution.CatalogKey` | pkg/controller/nodes/task/pre_post_execution.go:26-31 | The key is the task id, its discovery version, its interface and the input reader. |
| `PrePostExecution.CheckCatalogCache` | pkg/controller/nodes/task/pre_post_execution.go:19-61 | A read failure gives (false, err). Non-discoverable gives (false, nil) with no lookup. NotFound gives a miss (false, nil), and other Get errors give (false, wrapped). A hit gives true, with outputs copied only when declared and a copy failure giving (false, wrapped). A nil response gives (false, nil). |
| `PrePostExecution.CachedExactlyOnSuccessfulHit` | pkg/controller/nodes/task/pre_post_execution.go:33-58 | The task is served from the cache exactly on a discoverable hit whose declared outputs copy without error, and a hit never carries an error. |
| `PrePostExecution.CacheCheckEffects` | pkg/controller/nodes/task/pre_post_execution.go:25-53 | The catalog is consulted exactly for a readable discoverable task. Storage is written only on a hit with declared outputs. Nothing is committed and nothing is put. |
| `PrePostExecution.TaskError` | pkg/controller/nodes/task/pre_post_execution.go:99-105 | A missing structured error defaults to UNKNOWN/"Unknown"/"Unknown". The message is trimmed to the configured maximum, and the kind, code and recoverability are kept. |
| `PrePostExecution.ValidateOutputAndCacheAdd` | pkg/controller/nodes/task/pre_post_execution.go:63-173 | This is the full decision tree. A nil reader gives a recoverable OutputsNotGenerated when outputs are declared. A reported task error is returned. Missing outputs give a recoverable OutputsNotFound. Outputs are committed unless already a file, and a commit error is returned. Plugin resolution failure gives UnsupportedTaskTypeError. The catalog put happens only when caching is allowed, and its failure is swallowed. |
| `PrePostExecution.CatalogWrittenExactlyWhenReached` | pkg/controller/nodes/task/pre_post_execution.go:109-172 | The catalog is written exactly when the outputs were accepted, the task is discoverable, the plugin resolves and node-level caching is enabled. The write is then last and single, and the result is (nil, nil) whether or not it succeeded. |
| `PrePostExecution.ValidationEffects` | pkg/controller/nodes/task/pre_post_execution.go:75-136 | A task that reports an error, or cannot be checked, causes no effects. A commit happens exactly when declared outputs exist and are not a file. An execution error never comes with a Go error. |
| `Builders.TaskBuilder.GetId` | pkg/compiler/builders.go:138-144 | The template's id, or the zero Identifier when it has none. |
| `Builders.GetIdZeroExactly` | pkg/compiler/builders.go:138-144 | GetId is the zero Identifier exactly when the id is absent or is itself zero. |
| `Builders.NodeBuilder.constructor` | pkg/compiler/builders.go:54-56 | A new node builder wraps the given node and has no task, interface or sub-workflow. |
| `Builders.NodeBuilder.SetTask` | pkg/compiler/builders.go:94-100 | GetTask returns what was set, and the interface and sub-workflow are unchanged. |
| `Builders.NodeBuilder.SetInterface` | pkg/compiler/builders.go:110-116 | GetInterface returns what was set, and the task and sub-workflow are unchanged. |
| `Builders.NodeBuilder.SetSubWorkflow` | pkg/compiler/builders.go:102-120 | GetSubWorkflow returns what was set, and the task and interface are unchanged. |
| `Builders.NodeBuilder.SetInputs` | pkg/compiler/builders.go:122-124 | Overwrites the wrapped node's inputs and keeps its id. |
| `Builders.NodeBuilder.SetId` | pkg/compiler/builders.go:126-128 | Overwrites the wrapped node's id and keeps its inputs. |
| `Builders.WorkflowBuilder.GetNode` | pkg/compiler/builders.go:58-61 | Found exactly when the id is a key of the node index, together with that entry. |
| `Builders.WorkflowBuilder.GetTask` | pkg/compiler/builders.go:63-66 | Looks the task up by the id's String() rendering: found exactly when that key is present. |
| `Builders.WorkflowBuilder.GetLaunchPlan` | pkg/compiler/builders.go:68-71 | Looks the launch plan up by the id's String() rendering: found exactly when that key is present. |
| `Builders.WorkflowBuilder.GetSubWorkflow` | pkg/compiler/builders.go:77-80 | Reads the shared index by the id's String() rendering. |
| `Builders.WorkflowBuilder.UpdateSubWorkflow` | pkg/compiler/builders.go:73-75 | The id reads back the new workflow, and every id with a different key reads what it read before. |
| `Builders.WorkflowBuilder.NewNodeBuilder` | pkg/compiler/builders.go:54-56 | Returns a fresh builder around the given node, with no computed fields. |
| `Builders.WorkflowBuilder.GetFailureNode` | pkg/compiler/builders.go:30-36 | Non-nil exactly when the core workflow, its template and the template's failure node are all present. It is then a fresh builder around that failure node. |
| `Builders.UpdateVisibleThroughCopy` | pkg/compiler/builders.go:73-80 | An update made through one copy of a workflow builder is read back through another copy that shares its index. |

Three behaviours of the code that the model keeps as written:

- **Aborted child.** An ABORTED child execution is reported as a USER failure (pkg/controller/nodes/subworkflow/launchplan.go:127).
- **Catalog errors.** A catalog Get error other than NotFound is returned to the caller (pkg/controller/nodes/task/pre_post_execution.go:43).
- **Catalog put.** The put is reached only when the task declares outputs (pkg/controller/nodes/task/pre_post_execution.go:110, 139).

## Left out

- The branch handler source is not part of this model. Only what its tests fix (pkg/controller/nodes/branch/handler_test.go) is modelled as stated, together with the documented selection state machine. Three choices go beyond the tests and are the model's own:
  - the error for a persisted node the lookup does not hold;
  - persisting BranchNodeError when selection fails;
  - mapping an Undefined child status without an error to Running.
- Branch condition evaluation (if / else-if / else selection) is not modelled. `Branch.Handle` takes the evaluation's outcome as an input.
- `Branch.RecurseDownstream` requires the child's status to be readable through the lookup only when the child completes, because only then does the source read it. `Branch.Handle` requires the same of the node it recurses into.
- `PrePostExecution.CheckCatalogCache` requires the task id and interface of a discoverable task to be present, because the source dereferences both to build the key.
- `PrePostExecution.ValidateOutputAndCacheAdd` requires the task id whenever the catalog write is reached, for the same reason.
- `Builders.NodeBuilder.SetInputs` and `Builders.NodeBuilder.SetId` require the wrapped node to be non-nil, because the source writes through that pointer unguarded (pkg/compiler/builders.go:123, 127).
- TaskTemplate metadata is modelled as always present, because the source dereferences it unguarded (pkg/controller/nodes/task/pre_post_execution.go:25, 139). So the "0" cache-version default at lines 151-154 can never be taken, and the model uses the discovery version.
- These collaborators are function-typed parameters whose internals are not modelled:
  - `FixedLengthUniqueIDForParts`;
  - `GetChildWorkflowExecutionID`;
  - `trimErrorMessage`;
  - `Identifier.String()`;
  - the launch-plan package's IsAlreadyExists, IsUserError and IsNotFound, and `errors.GetErrorCode`, which appear as fields of the response values;
  - gRPC status decoding, which appears as the cause's code in the catalog response.
- The text of a Go error (`err.Error()`) and of `fmt.Sprintf` is kept symbolic (the `Message` datatype), because the error packages are not part of this model.
- Metrics counters, logging and the `init()` metric-key registration are left out, because they do not affect any result.
- Protobuf messages, Kubernetes resources and mocks are reduced to the ids, strings and optional fields the core reads.
- `WorkflowNodeInfo` is flattened into the launched workflow id of `ExecutionInfo`.
- `NOOPCatalog.Get` is not composed with `CheckCatalogCache`. `Get` returns a catalog entry, while `CheckCatalogCache` treats the answer of the catalog client as an output reader. The two are modelled separately, and the catalog client of the gate is a parameter.
- The plain accessors `GetNodes`, `GetTasks`, `GetDownstreamNodes`, `GetUpstreamNodes`, `GetCoreWorkflow`, `GetCoreNode` and `GetCoreTask` only return a field. They are modelled without contracts.
- A nil compiled workflow stored in the sub-workflow index is not modelled; the index holds workflow values.
- pkg/compiler/validators/branch_test.go is not modelled, because the validator it exercises is not part of this model.
