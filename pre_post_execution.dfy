/**
 * The memoization gate around a task execution (pkg/controller/nodes/task/pre_post_execution.go):
 * before the task runs, a discoverable task may be satisfied from the catalog; after it runs,
 * its outputs are validated, committed and, when allowed, written to the catalog.
 *
 * Every collaborator (task reader, catalog client, output writer, plugin registry, message
 * trimming) is a parameter. Each result lists the side effects performed, in order.
 */
module PrePostExecution {
  import opened Wrappers
  import opened Core
  import opened PluginIo
  import opened Catalog

  /** codes.NotFound of gRPC. */
  const GrpcNotFound: nat := 5

  /**
   * The answer of the catalog client's Get: a cached output reader, a nil response with a nil
   * error, or an error together with the gRPC code of its cause when the cause is a gRPC status.
   */
  datatype CatalogGetResponse =
    | GetHit(reader: OutputReader)
    | GetNil
    | GetError(err: Error, causeCode: Option<nat>)

  /** The catalog client as the task handler uses it. */
  datatype CatalogClient = CatalogClient(get: Key -> CatalogGetResponse,
                                         put: (Key, OutputReader, Metadata) -> Result<Status, Error>)

  /** PluginProperties: only the node-level caching switch. */
  datatype PluginProperties = PluginProperties(disableNodeLevelCaching: bool)

  /** The task handler's collaborators and configuration. */
  datatype TaskHandler = TaskHandler(
    catalog: CatalogClient,
    resolvePlugin: string -> Result<PluginProperties, Error>,
    maxErrorMessageLength: int,
    trimErrorMessage: (Message, int) -> Message)

  /** A side effect on storage or on the catalog. */
  datatype Effect =
    | CatalogLookup(key: Key)
      /** outputWriter.Put of the cached outputs. */
    | CachedOutputsWritten(cached: OutputReader)
      /** outputCommitter.Put of the task's outputs. */
    | OutputsCommitted(outputs: OutputReader)
      /** catalog.Put, and whether it succeeded. */
    | CatalogWrite(key: Key, outputs: OutputReader, metadata: Metadata, succeeded: bool)

  /** (bool, error) of CheckCatalogCache, plus its effects. */
  datatype CacheCheck = CacheCheck(cached: bool, err: Option<Error>, effects: seq<Effect>)

  /** (*io.ExecutionError, error) of ValidateOutputAndCacheAdd, plus its effects. */
  datatype Validation = Validation(execErr: Option<IoExecutionError>, err: Option<Error>, effects: seq<Effect>)

  /** The interface declares at least one output variable. */
  predicate OutputsDeclared(iface: Option<TypedInterface>) {
    iface.Some? && iface.value.outputs.Some? && |iface.value.outputs.value.variables| > 0
  }

  /** The catalog key of a task: id, discovery version, interface and inputs. */
  function CatalogKey(tk: TaskTemplate, inputs: InputReader): (k: Key)
    requires tk.id.Some? && tk.iface.Some?
    ensures k.identifier == tk.id.value && k.cacheVersion == tk.metadata.discoveryVersion
    ensures k.typedInterface == tk.iface.value && k.inputReader == inputs
  {
    Key(tk.id.value, tk.metadata.discoveryVersion, tk.iface.value, inputs)
  }

  /** The fields the source dereferences to build a key are present (a nil one panics). */
  predicate KeyFieldsPresent(tk: TaskTemplate) {
    tk.id.Some? && tk.iface.Some?
  }

  /**
   * The Get answer counts as a miss: its cause is a gRPC status with code NotFound.
   */
  predicate IsCacheMiss(resp: CatalogGetResponse) {
    resp.GetError? && resp.causeCode == Some(GrpcNotFound)
  }

  /** CheckCatalogCache: whether the task's outputs were served from the catalog. */
  function CheckCatalogCache(h: TaskHandler, read: Result<TaskTemplate, Error>, inputs: InputReader,
                             outputWriter: OutputReader -> Option<Error>): (r: CacheCheck)
    requires read.Ok? && read.value.metadata.discoverable ==> KeyFieldsPresent(read.value)
    // the template cannot be read: (false, err), nothing consulted
    ensures read.Err? ==> r == CacheCheck(false, Some(read.error), [])
    // not discoverable: (false, nil), the catalog is not consulted
    ensures read.Ok? && !read.value.metadata.discoverable ==> r == CacheCheck(false, None, [])
    ensures read.Ok? && read.value.metadata.discoverable ==>
      var tk := read.value;
      var key := CatalogKey(tk, inputs);
      && |r.effects| > 0 && r.effects[0] == CatalogLookup(key)
      && (match h.catalog.get(key)
          // a miss: run the task
          case GetError(e, _) =>
            r == (if IsCacheMiss(h.catalog.get(key)) then CacheCheck(false, None, [CatalogLookup(key)])
                  else CacheCheck(false, Some(Wrapped(e, "Failed to check Catalog for previous results")), [CatalogLookup(key)]))
          // a hit: copy the outputs only when some are declared
          case GetHit(cached) =>
            if OutputsDeclared(tk.iface) then
              && r.effects == [CatalogLookup(key), CachedOutputsWritten(cached)]
              && (outputWriter(cached).None? ==> r.cached && r.err.None?)
              && (outputWriter(cached).Some? ==>
                    !r.cached && r.err == Some(Wrapped(outputWriter(cached).value, "failed to copy cached results for task.")))
            else r == CacheCheck(true, None, [CatalogLookup(key)])
          // nil response, nil error: never a hit, and wrapping nil gives nil
          case GetNil => r == CacheCheck(false, None, [CatalogLookup(key)]))
  {
    match read
    case Err(e) => CacheCheck(false, Some(e), [])
    case Ok(tk) =>
      if !tk.metadata.discoverable then CacheCheck(false, None, [])
      else
        var key := CatalogKey(tk, inputs);
        var resp := h.catalog.get(key);
        match resp
        case GetError(e, code) =>
          if code.Some? && code.value == GrpcNotFound then CacheCheck(false, None, [CatalogLookup(key)])
          else CacheCheck(false, Some(Wrapped(e, "Failed to check Catalog for previous results")), [CatalogLookup(key)])
        case GetHit(cached) =>
          if OutputsDeclared(tk.iface) then
            match outputWriter(cached)
            case Some(e) =>
              CacheCheck(false, Some(Wrapped(e, "failed to copy cached results for task.")),
                         [CatalogLookup(key), CachedOutputsWritten(cached)])
            case None => CacheCheck(true, None, [CatalogLookup(key), CachedOutputsWritten(cached)])
          else CacheCheck(true, None, [CatalogLookup(key)])
        case GetNil =>
          CacheCheck(false, WrapOrNil(None, "Nil catalog response. Failed to check Catalog for previous results"),
                     [CatalogLookup(key)])
  }

  /**
   * A cache hit is reported exactly when the template is read, the task is discoverable, the
   * catalog returns outputs and, if outputs are declared, copying them succeeds; and a hit never
   * comes with an error.
   */
  lemma CachedExactlyOnSuccessfulHit(h: TaskHandler, read: Result<TaskTemplate, Error>, inputs: InputReader,
                                     outputWriter: OutputReader -> Option<Error>)
    requires read.Ok? && read.value.metadata.discoverable ==> KeyFieldsPresent(read.value)
    ensures var r := CheckCatalogCache(h, read, inputs, outputWriter);
      && (r.cached ==> r.err.None?)
      && (r.cached <==>
            && read.Ok? && read.value.metadata.discoverable
            && var resp := h.catalog.get(CatalogKey(read.value, inputs));
               && resp.GetHit?
               && (OutputsDeclared(read.value.iface) ==> outputWriter(resp.reader).None?))
  {
  }

  /** Storage is written only on a hit with declared outputs; the catalog is read only for discoverable tasks. */
  lemma CacheCheckEffects(h: TaskHandler, read: Result<TaskTemplate, Error>, inputs: InputReader,
                          outputWriter: OutputReader -> Option<Error>, e: Effect)
    requires read.Ok? && read.value.metadata.discoverable ==> KeyFieldsPresent(read.value)
    ensures var r := CheckCatalogCache(h, read, inputs, outputWriter);
      && (r.effects != [] <==> read.Ok? && read.value.metadata.discoverable)
      && (e in r.effects && e.CachedOutputsWritten? ==>
            && read.Ok? && OutputsDeclared(read.value.iface)
            && h.catalog.get(CatalogKey(read.value, inputs)) == GetHit(e.cached))
      && (forall x :: x in r.effects ==> !x.OutputsCommitted? && !x.CatalogWrite?)
  {
  }

  // ---------------------------------------------------------------------------
  // ValidateOutputAndCacheAdd
  // ---------------------------------------------------------------------------

  /** The recoverable error for a task whose plugin returned no reader although outputs are declared. */
  const OutputsNotGenerated := IoExecutionError(Some(ExecutionError(Unknown, "OutputsNotGenerated",
                                                Text("Output Reader was nil. Plugin/Platform problem."))), true)

  /** The recoverable error for declared outputs that do not exist. */
  const OutputsNotFound := IoExecutionError(Some(ExecutionError(Unknown, "OutputsNotFound",
                                            Text("Outputs not generated by task execution"))), true)

  /** The structured error the reader reports, defaulted when absent and with its message trimmed. */
  function TaskError(h: TaskHandler, taskErr: IoExecutionError): (e: IoExecutionError)
    ensures e.isRecoverable == taskErr.isRecoverable && e.executionError.Some?
    ensures taskErr.executionError.None? ==>
      e.executionError.value == ExecutionError(Unknown, "Unknown", h.trimErrorMessage(Text("Unknown"), h.maxErrorMessageLength))
    ensures taskErr.executionError.Some? ==>
      var x := taskErr.executionError.value;
      e.executionError.value == ExecutionError(x.kind, x.code, h.trimErrorMessage(x.message, h.maxErrorMessageLength))
  {
    var x := taskErr.executionError.GetOr(ExecutionError(Unknown, "Unknown", Text("Unknown")));
    IoExecutionError(Some(x.(message := h.trimErrorMessage(x.message, h.maxErrorMessageLength))), taskErr.isRecoverable)
  }

  /** The task's outputs have been validated (and committed if needed): the catalog step is next. */
  predicate OutputsAccepted(read: Result<TaskTemplate, Error>, reader: Option<OutputReader>,
                            commit: OutputReader -> Option<Error>) {
    && read.Ok? && OutputsDeclared(read.value.iface)
    && reader.Some? && reader.value.isError == Ok(false) && reader.value.outputExists == Ok(true)
    && (!reader.value.isFile ==> commit(reader.value).None?)
  }

  /** The catalog write is reached: outputs accepted, task discoverable, plugin found, caching allowed. */
  predicate CatalogWriteReached(h: TaskHandler, read: Result<TaskTemplate, Error>, reader: Option<OutputReader>,
                                commit: OutputReader -> Option<Error>) {
    && OutputsAccepted(read, reader, commit)
    && read.value.metadata.discoverable
    && h.resolvePlugin(read.value.taskType).Ok?
    && !h.resolvePlugin(read.value.taskType).value.disableNodeLevelCaching
  }

  /** The commit effect, which happens when the outputs are not already a file. */
  function CommitEffects(reader: OutputReader): seq<Effect> {
    if reader.isFile then [] else [OutputsCommitted(reader)]
  }

  /** ValidateOutputAndCacheAdd: the execution error of a finished task, or nil, plus effects. */
  function ValidateOutputAndCacheAdd(h: TaskHandler, nodeId: NodeId, inputs: InputReader, reader: Option<OutputReader>,
                                     commit: OutputReader -> Option<Error>, read: Result<TaskTemplate, Error>,
                                     m: Metadata): (r: Validation)
    requires CatalogWriteReached(h, read, reader, commit) ==> read.value.id.Some?
    ensures read.Err? ==> r == Validation(None, Some(read.error), [])
    // no reader
    ensures read.Ok? && reader.None? ==>
      r == Validation(if OutputsDeclared(read.value.iface) then Some(OutputsNotGenerated) else None, None, [])
    // the reader cannot say whether the task failed, or cannot read the failure
    ensures read.Ok? && reader.Some? && reader.value.isError.Err? ==>
      r == Validation(None, Some(reader.value.isError.error), [])
    ensures read.Ok? && reader.Some? && reader.value.isError == Ok(true) ==>
      r == (match reader.value.readError
            case Err(e) => Validation(None, Some(e), [])
            case Ok(taskErr) => Validation(Some(TaskError(h, taskErr)), None, []))
    // the task succeeded without declaring outputs: nothing to validate
    ensures read.Ok? && reader.Some? && reader.value.isError == Ok(false) && !OutputsDeclared(read.value.iface) ==>
      r == Validation(None, None, [])
    ensures read.Ok? && reader.Some? && reader.value.isError == Ok(false) && OutputsDeclared(read.value.iface) ==>
      var rd := reader.value;
      match rd.outputExists
      case Err(e) => r == Validation(None, Some(e), [])
      case Ok(false) => r == Validation(Some(OutputsNotFound), None, [])
      case Ok(true) =>
        if !rd.isFile && commit(rd).Some? then r == Validation(None, Some(commit(rd).value), [OutputsCommitted(rd)])
        else if !read.value.metadata.discoverable then r == Validation(None, None, CommitEffects(rd))
        else
          match h.resolvePlugin(read.value.taskType)
          case Err(e) =>
            r == Validation(None, Some(NodeError("UnsupportedTaskTypeError", nodeId, Some(e), "unable to resolve plugin")),
                            CommitEffects(rd))
          case Ok(p) =>
            if p.disableNodeLevelCaching then r == Validation(None, None, CommitEffects(rd))
            else
              var key := CatalogKey(read.value, inputs);
              // a failed catalog write is swallowed
              r == Validation(None, None, CommitEffects(rd) + [CatalogWrite(key, rd, m, h.catalog.put(key, rd, m).Ok?)])
  {
    match read
    case Err(e) => Validation(None, Some(e), [])
    case Ok(tk) =>
      var outputsDeclared := OutputsDeclared(tk.iface);
      match reader
      case None => Validation(if outputsDeclared then Some(OutputsNotGenerated) else None, None, [])
      case Some(rd) =>
        match rd.isError
        case Err(e) => Validation(None, Some(e), [])
        case Ok(true) =>
          (match rd.readError
           case Err(e) => Validation(None, Some(e), [])
           case Ok(taskErr) => Validation(Some(TaskError(h, taskErr)), None, []))
        case Ok(false) =>
          if !outputsDeclared then Validation(None, None, [])
          else
            match rd.outputExists
            case Err(e) => Validation(None, Some(e), [])
            case Ok(false) => Validation(Some(OutputsNotFound), None, [])
            case Ok(true) =>
              var committed := CommitEffects(rd);
              if !rd.isFile && commit(rd).Some? then Validation(None, Some(commit(rd).value), committed)
              else if !tk.metadata.discoverable then Validation(None, None, committed)
              else
                match h.resolvePlugin(tk.taskType)
                case Err(e) =>
                  Validation(None, Some(NodeError("UnsupportedTaskTypeError", nodeId, Some(e), "unable to resolve plugin")),
                             committed)
                case Ok(p) =>
                  if p.disableNodeLevelCaching then Validation(None, None, committed)
                  else
                    var key := CatalogKey(tk, inputs);
                    var put := h.catalog.put(key, rd, m);
                    Validation(None, None, committed + [CatalogWrite(key, rd, m, put.Ok?)])
  }

  /**
   * The catalog is written exactly when the write step is reached, and then at most once and
   * last; a failed write changes nothing in the result.
   */
  lemma CatalogWrittenExactlyWhenReached(h: TaskHandler, nodeId: NodeId, inputs: InputReader, reader: Option<OutputReader>,
                                         commit: OutputReader -> Option<Error>, read: Result<TaskTemplate, Error>,
                                         m: Metadata)
    requires CatalogWriteReached(h, read, reader, commit) ==> read.value.id.Some?
    ensures var r := ValidateOutputAndCacheAdd(h, nodeId, inputs, reader, commit, read, m);
      && ((exists i :: 0 <= i < |r.effects| && r.effects[i].CatalogWrite?) <==> CatalogWriteReached(h, read, reader, commit))
      && (CatalogWriteReached(h, read, reader, commit) ==>
            r.execErr.None? && r.err.None? && r.effects[|r.effects| - 1].CatalogWrite?
            && (forall i :: 0 <= i < |r.effects| - 1 ==> !r.effects[i].CatalogWrite?))
  {
    var r := ValidateOutputAndCacheAdd(h, nodeId, inputs, reader, commit, read, m);
    if CatalogWriteReached(h, read, reader, commit) {
      assert r.effects[|r.effects| - 1].CatalogWrite?;
    }
  }

  /**
   * A task that reports an error (or cannot be checked) has nothing committed and nothing
   * cached, and a commit happens only when the outputs exist and are not already a file.
   */
  lemma ValidationEffects(h: TaskHandler, nodeId: NodeId, inputs: InputReader, reader: Option<OutputReader>,
                          commit: OutputReader -> Option<Error>, read: Result<TaskTemplate, Error>, m: Metadata)
    requires CatalogWriteReached(h, read, reader, commit) ==> read.value.id.Some?
    ensures var r := ValidateOutputAndCacheAdd(h, nodeId, inputs, reader, commit, read, m);
      && (reader.Some? && reader.value.isError != Ok(false) ==> r.effects == [])
      && (forall x :: x in r.effects && x.OutputsCommitted? ==> reader == Some(x.outputs))
      && (reader.Some? ==>
            (OutputsCommitted(reader.value) in r.effects <==>
              && read.Ok? && OutputsDeclared(read.value.iface)
              && reader.value.isError == Ok(false) && reader.value.outputExists == Ok(true) && !reader.value.isFile))
      && (r.execErr.Some? ==> r.err.None? && r.effects == [])
  {
  }
}
