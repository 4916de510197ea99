/** The journal engine (libjlog) as the binding sees it: the replies of its calls, and a
    record of which calls were made. Nothing here models files or segments. */
module Store {
  import opened Positions
  import opened Values

  /** The error codes the binding tells apart after a failed call (jlog_ctx_err):
      JLOG_ERR_FILE_OPEN, JLOG_ERR_CREATE_EXISTS, and everything else. */
  datatype ErrCode = FileOpen | CreateExists | OtherError

  /** jlog_ctx_read_interval: the count it returns, the error code set by the call, and the
      values it leaves in the start and end slots passed by pointer. */
  datatype IntervalReply = IntervalReply(cnt: int, err: ErrCode, start: Pos, end: Pos)

  /** jlog_ctx_advance_id: the values it leaves in the last, cur and end slots passed by pointer. */
  datatype AdvanceReply = AdvanceReply(last: Pos, cur: Pos, end: Pos)

  /** jlog_ctx_read_message: success, or failure with the error code it sets. */
  datatype MessageReply = MessageOk | MessageFailed(err: ErrCode)

  /** jlog_ctx_init: success, or failure with the error code it sets. */
  datatype InitReply = Initialized | InitError(err: ErrCode)

  /** How the store answers during one read: the interval it reports, and, as functions of
      their arguments, what advancing, reading a message and committing a checkpoint give. */
  datatype ReadStore = ReadStore(
    interval: IntervalReply,
    advance: (Pos, Pos) -> AdvanceReply,
    message: Pos -> MessageReply,
    commit: Pos -> bool)

  /** How the store answers while a handle is created: whether jlog_new succeeds the first
      time, what jlog_ctx_init reports, whether jlog_new succeeds again after the init, and
      the subscriber names jlog_ctx_list_subscribers lists. */
  datatype OpenStore = OpenStore(newOk: bool, init: InitReply, reopenOk: bool, listing: seq<string>)

  /** One call into the store, with the arguments that matter. CtxReadCheckpoint is how the
      binding commits a subscriber's checkpoint. */
  datatype Call =
    | CtxNew
    | CtxInit
    | CtxClose
    | CtxListSubscribers
    | CtxAddSubscriber(subscriber: Option<string>, whence: int)
    | CtxRemoveSubscriber(name: string)
    | CtxRawSize
    | CtxOpenWriter
    | CtxOpenReader(reader: string)
    | CtxWriteMessage(message: string, timestamp: Option<int>)
    | CtxReadInterval
    | CtxAdvanceId(from: Pos, bound: Pos)
    | CtxReadMessage(at: Pos)
    | CtxReadCheckpoint(committed: Pos)
}
