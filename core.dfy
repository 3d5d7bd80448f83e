/**
 * The protocol-level values the engine passes around: identifiers, structured execution
 * errors, storage references and task templates. Protobuf messages are reduced to the
 * fields the core reads.
 */
module Core {
  import opened Wrappers

  /** Go's `uint32`, used for retry attempts. */
  newtype uint32 = x: int | 0 <= x < 0x1_0000_0000

  type NodeId = string

  datatype ResourceType = Unspecified | Task | Workflow | LaunchPlan

  /** core.Identifier; the zero value has every field empty. */
  datatype Identifier = Identifier(resourceType: ResourceType, project: string, domain: string,
                                   name: string, version: string)

  const ZeroIdentifier := Identifier(Unspecified, "", "", "", "")

  /** core.WorkflowExecutionIdentifier. */
  datatype WorkflowExecutionIdentifier = WorkflowExecutionIdentifier(project: string, domain: string, name: string)

  /** core.NodeExecutionIdentifier; `executionId` is a pointer in the source, hence optional. */
  datatype NodeExecutionIdentifier = NodeExecutionIdentifier(executionId: Option<WorkflowExecutionIdentifier>,
                                                             nodeId: NodeId)

  /**
   * A Go `error`. Errors produced by collaborators are opaque and known only by their text;
   * the two wrapping forms record what the core adds to them.
   */
  datatype Error =
    | Opaque(text: string)
      /** nodes/errors.Wrapf / Errorf: an error code, the node it is about and an optional cause. */
    | NodeError(code: string, nodeId: NodeId, cause: Option<Error>, context: string)
      /** github.com/pkg/errors.Wrapf on a non-nil error. */
    | Wrapped(wrapped: Error, context: string)

  /**
   * github.com/pkg/errors.Wrapf: wrapping a nil error yields nil, wrapping a real error
   * keeps it as the cause.
   */
  function WrapOrNil(err: Option<Error>, context: string): (r: Option<Error>)
    ensures err.None? <==> r.None?
    ensures err.Some? ==> r == Some(Wrapped(err.value, context))
  {
    match err
    case None => None
    case Some(e) => Some(Wrapped(e, context))
  }

  /**
   * The text of an ExecutionError. The text of a Go error (`err.Error()`) depends on error
   * packages outside this model, so it is kept symbolic.
   */
  datatype Message =
    | Text(text: string)
    | ErrorText(err: Error)
      /** fmt.Sprintf(format, err) with a single `%s` verb. */
    | Sprintf(format: string, arg: Error)

  /** core.ExecutionError_ErrorKind; UNKNOWN is the zero value. */
  datatype ErrorKind = Unknown | User | System

  /** core.ExecutionError (the error URI is not modelled). */
  datatype ExecutionError = ExecutionError(kind: ErrorKind, code: string, message: Message)

  /** storage.DataReference. The outputs file of a directory is a distinct reference. */
  datatype DataReference = Ref(path: string) | OutputsFile(dir: DataReference)

  /** A literal map, with literal values reduced to their serialised text. */
  datatype LiteralMap = LiteralMap(literals: map<string, string>)

  /** core.VariableMap: declared variable names and their types. */
  datatype VariableMap = VariableMap(variables: map<string, string>)

  /** core.TypedInterface; a nil Outputs pointer is `None`. */
  datatype TypedInterface = TypedInterface(inputs: Option<VariableMap>, outputs: Option<VariableMap>)

  /** core.TaskMetadata (only the memoization fields). */
  datatype TaskMetadata = TaskMetadata(discoverable: bool, discoveryVersion: string)

  /** core.TaskTemplate. `id` and `iface` are pointers in the source. */
  datatype TaskTemplate = TaskTemplate(id: Option<Identifier>, taskType: string, metadata: TaskMetadata,
                                       iface: Option<TypedInterface>)
}
