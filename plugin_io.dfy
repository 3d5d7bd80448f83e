/**
 * The plugin machinery's I/O interfaces (flyteplugins io package), reduced to the answers the
 * task handler reads from them. A reader is a value that records how each of its calls would
 * answer; the storage behind it is not modelled.
 */
module PluginIo {
  import opened Wrappers
  import opened Core

  /** io.InputReader, known by the location of its inputs. */
  datatype InputReader = InputReader(inputPrefix: DataReference)

  /** io.ExecutionError: a structured error (a pointer, so optional) and whether a retry may help. */
  datatype IoExecutionError = IoExecutionError(executionError: Option<ExecutionError>, isRecoverable: bool)

  /** io.OutputReader: the answers of IsError, ReadError, Exists and IsFile. */
  datatype OutputReader = OutputReader(
    outputPrefix: DataReference,
    isError: Result<bool, Error>,
    readError: Result<IoExecutionError, Error>,
    outputExists: Result<bool, Error>,
    isFile: bool)
}
