/**
 * Lineage records and the execution context handed down the recursive traversal. Both are
 * immutable values: a child context is derived from its parent's, never written into it.
 */
module ExecutionContexts {
  import opened Wrappers
  import opened Core

  /** executors.ImmutableParentInfo: the unique id and current attempt of one ancestor occurrence. */
  datatype ParentInfo = ParentInfo(uniqueId: string, currentAttempt: uint32)

  /**
   * executors.ExecutionContext reduced to what the core reads: the execution's name, its
   * event-version capability and the current parent (`None` for top-level nodes).
   */
  datatype ExecutionContext = ExecutionContext(name: string, eventVersion: int, parentInfo: Option<ParentInfo>)

  /** executors.NewExecutionContextWithParentInfo: the same execution, seen from a new parent. */
  function WithParentInfo(ec: ExecutionContext, parent: ParentInfo): (r: ExecutionContext)
    ensures r.parentInfo == Some(parent)
    ensures r.name == ec.name && r.eventVersion == ec.eventVersion
  {
    ec.(parentInfo := Some(parent))
  }
}
