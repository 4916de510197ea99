/** What the binding's functions hand back to Ruby: a value, or a raised JLog::Error. */
module Values {

  datatype Option<+T> = None | Some(value: T)

  /** The Ruby values the binding returns. */
  datatype Value = Nil | True | False | Int(n: int) | Names(names: seq<string>)

  /** The exceptions the binding raises, each a JLog::Error with its own message text. */
  datatype Raised =
    | InvalidContext      // "Invalid jlog context"
    | NewFailed           // "jlog_new(path) failed"
    | AlreadyExists       // "file already exists: path"
    | InitFailed          // "Error initializing jlog"
    | NewFailedAfterInit  // "jlog_new(path) failed after successful init"
    | OpenWriterFailed    // "jlog_ctx_open_writer failed"
    | OpenReaderFailed    // "jlog_ctx_open_reader failed"
    | ReadIntervalFailed  // "jlog_ctx_read_interval_failed"
    | ReadFailed          // "read failed"
    | CheckpointFailed    // "checkpoint failed"

  /** The result of one call from Ruby: it returns a value or raises. */
  datatype Outcome = Returned(v: Value) | Raise(e: Raised)
}
