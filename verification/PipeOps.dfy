/** How an operation on a pipe ends. */
module PipeOps {
  datatype PipeRes = Success | Canceled | Failed | Timeout
}
