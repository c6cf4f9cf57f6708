/**
 The state of the three response-writer decorators. Each wraps the
 underlying writer `w` and owns nothing else but a flag or two counters.
 */
module Writers {
  import opened Http

  /** lib.go's serverWriter: injects the Server header once. */
  datatype ServerWriter = ServerWriter(w: Sink, name: string, wroteHeader: bool)

  /** lib.go's responseLogger: remembers the status and counts the bytes written. */
  datatype ResponseLogger = ResponseLogger(w: Sink, status: int, size: int)

  /** noctx.go's startWriter: injects X-Request-Duration once, measured from `monoStart`. */
  datatype StartWriter = StartWriter(w: Sink, monoStart: uint64, wroteHeader: bool)
}
