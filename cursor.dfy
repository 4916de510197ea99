/** The reader cursor of a jlog handle as values: the fields of jlog_obj that the reader's
    functions read and write, and what each of jlog_r_read, jlog_r_rewind,
    jlog_r_checkpoint, jlog_r_auto_checkpoint and jlog_close does to them. The class
    Handle.JLog updates its fields in place and is proved to follow these functions. */
module Cursor {
  import opened Positions
  import opened Values
  import opened Store

  /** The fields of jlog_obj that the cursor functions use. hasCtx is false once the handle
      is closed (ctx is NULL); autoCheckpoint and error are C ints. */
  datatype State = State(
    hasCtx: bool,
    start: Pos,
    last: Pos,
    prev: Pos,
    end: Pos,
    autoCheckpoint: int,
    error: int)

  /** What one call does: the fields afterwards, what Ruby sees, the position whose message
      was read and kept (the C code computes it but returns nil), and the store calls made. */
  datatype Effect = Effect(after: State, outcome: Outcome, delivered: Option<Pos>, calls: seq<Call>)

  const NilReturned: Outcome := Returned(Nil)

  /** The effect of every operation on a closed handle but close itself. */
  function Refused(s: State): Effect
  {
    Effect(s, Raise(InvalidContext), None, [])
  }

  /** A read must query the interval first: an earlier read failed, or start is unset. */
  predicate NeedsResync(s: State)
  {
    s.error != 0 || s.start == Epoch
  }

  /** The interval query found nothing to read: an empty interval, or the "file not open"
      error, which the binding treats as the same. */
  predicate NothingToRead(iv: IntervalReply)
  {
    iv.cnt == 0 || (iv.cnt == -1 && iv.err == FileOpen)
  }

  /** The interval query failed with any other error. */
  predicate IntervalBroken(iv: IntervalReply)
  {
    iv.cnt == -1 && iv.err != FileOpen
  }

  /** Forget the known interval; last and prev stay. */
  function Unsynced(s: State): State
  {
    s.(start := Epoch, end := Epoch)
  }

  /** After the interval phase: go on with these fields, or the read is over. */
  datatype Synced = Proceed(s: State, calls: seq<Call>) | Stopped(e: Effect)

  /** The interval phase of a read (main.c:320-332). */
  function QueryInterval(s: State, iv: IntervalReply): (p: Synced)
    ensures !NeedsResync(s) ==> p == Proceed(s, [])
    ensures NeedsResync(s) ==>
      (p.Proceed? <==> !NothingToRead(iv) && !IntervalBroken(iv))
    ensures NeedsResync(s) && NothingToRead(iv) ==>
      p == Stopped(Effect(Unsynced(s).(error := 0), NilReturned, None, [CtxReadInterval]))
    ensures NeedsResync(s) && IntervalBroken(iv) ==>
      p.Stopped? && p.e.outcome == Raise(ReadIntervalFailed) && p.e.delivered == None &&
      p.e.calls == [CtxReadInterval] &&
      p.e.after == s.(error := 0, start := iv.start, end := iv.end)
    ensures p.Proceed? ==>
      p.s.error == 0 && p.s.last == s.last && p.s.prev == s.prev &&
      p.s.hasCtx == s.hasCtx && p.s.autoCheckpoint == s.autoCheckpoint
    ensures p.Proceed? && NeedsResync(s) ==>
      p.s.start == iv.start && p.s.end == iv.end && p.calls == [CtxReadInterval]
  {
    if !NeedsResync(s) then Proceed(s, [])
    else
      var t := s.(error := 0, start := iv.start, end := iv.end);
      if NothingToRead(iv) then Stopped(Effect(Unsynced(t), NilReturned, None, [CtxReadInterval]))
      else if iv.cnt == -1 then Stopped(Effect(t, Raise(ReadIntervalFailed), None, [CtxReadInterval]))
      else Proceed(t, [CtxReadInterval])
  }

  /** After the position phase: read the message at cur, or the cursor is exhausted. */
  datatype Positioned = At(s: State, cur: Pos, calls: seq<Call>) | Exhausted(s: State, calls: seq<Call>)

  /** The position phase of a read (main.c:334-351): the first message of the interval, or
      the one after last as the store's advance reports it; advance may rewrite last and end. */
  function ChoosePosition(s: State, advance: (Pos, Pos) -> AdvanceReply): (p: Positioned)
    ensures s.last == Epoch ==> p == At(s, s.start, [])
    ensures s.last != Epoch && s.prev == s.end ==> p == Exhausted(Unsynced(s), [])
    ensures s.last != Epoch && s.prev != s.end ==>
      var a := advance(s.last, s.end);
      p.calls == [CtxAdvanceId(s.last, s.end)] &&
      (p.Exhausted? <==> a.last == a.cur) &&
      (p.Exhausted? ==> p.s == Unsynced(s).(last := a.last)) &&
      (p.At? ==> p.s == s.(last := a.last, end := a.end) && p.cur == a.cur)
    // an advance that makes no progress is never read from
    ensures p.At? && s.last != Epoch ==> p.cur != p.s.last
    ensures p.Exhausted? ==>
      p.s.start == Epoch && p.s.end == Epoch && p.s.prev == s.prev && p.s.error == s.error &&
      p.s.hasCtx == s.hasCtx && p.s.autoCheckpoint == s.autoCheckpoint
  {
    if s.last == Epoch then At(s, s.start, [])
    else if s.prev == s.end then Exhausted(Unsynced(s), [])
    else
      var a := advance(s.last, s.end);
      var t := s.(last := a.last, end := a.end);
      if a.last == a.cur then Exhausted(Unsynced(t), [CtxAdvanceId(s.last, s.end)])
      else At(t, a.cur, [CtxAdvanceId(s.last, s.end)])
  }

  /** The message phase of a read (main.c:352-375): read at cur, then either commit cur as
      the checkpoint and forget every position, or remember cur as last and last as prev. */
  function ReadAt(s: State, cur: Pos, message: Pos -> MessageReply, commit: Pos -> bool): (e: Effect)
    ensures |e.calls| > 0 && e.calls[0] == CtxReadMessage(cur)
    ensures e.outcome == NilReturned || e.outcome.Raise?
    ensures e.after.hasCtx == s.hasCtx && e.after.autoCheckpoint == s.autoCheckpoint
    // a failed read sets error and keeps every position; "file not open" is not an exception
    ensures message(cur).MessageFailed? ==>
      e.after == s.(error := 1) && e.delivered == None && e.calls == [CtxReadMessage(cur)] &&
      e.outcome == (if message(cur).err == FileOpen then NilReturned else Raise(ReadFailed))
    ensures e.delivered.Some? <==>
      message(cur).MessageOk? && (s.autoCheckpoint == 0 || commit(cur))
    ensures e.delivered.Some? ==> e.delivered.value == cur && e.outcome == NilReturned
    // without auto-checkpoint: one step of history
    ensures message(cur).MessageOk? && s.autoCheckpoint == 0 ==>
      e.after == s.(prev := s.last, last := cur) && e.calls == [CtxReadMessage(cur)]
    // with auto-checkpoint: cur is committed, then all four positions are forgotten
    ensures message(cur).MessageOk? && s.autoCheckpoint != 0 ==>
      e.calls == [CtxReadMessage(cur), CtxReadCheckpoint(cur)] &&
      (commit(cur) ==> e.after == s.(start := Epoch, last := Epoch, prev := Epoch, end := Epoch)) &&
      (!commit(cur) ==> e.after == s && e.outcome == Raise(CheckpointFailed))
  {
    match message(cur)
    case MessageFailed(err) =>
      Effect(s.(error := 1), if err == FileOpen then NilReturned else Raise(ReadFailed), None,
             [CtxReadMessage(cur)])
    case MessageOk =>
      if s.autoCheckpoint != 0 then
        var calls := [CtxReadMessage(cur), CtxReadCheckpoint(cur)];
        if !commit(cur) then Effect(s, Raise(CheckpointFailed), None, calls)
        else Effect(s.(last := Epoch, prev := Epoch, start := Epoch, end := Epoch), NilReturned, Some(cur), calls)
      else
        Effect(s.(prev := s.last, last := cur), NilReturned, Some(cur), [CtxReadMessage(cur)])
  }

  /** The order in which a read may call the store: interval, advance, message, checkpoint. */
  function Rank(c: Call): int
  {
    match c
    case CtxReadInterval => 0
    case CtxAdvanceId(_, _) => 1
    case CtxReadMessage(_) => 2
    case CtxReadCheckpoint(_) => 3
    case _ => 4
  }

  /** Store calls of the read protocol only, each of a later kind than the one before it;
      so each kind occurs at most once, in the order of Rank. */
  predicate InProtocolOrder(calls: seq<Call>)
  {
    (forall i :: 0 <= i < |calls| ==> Rank(calls[i]) < 4) &&
    (forall i :: 0 < i < |calls| ==> Rank(calls[i - 1]) < Rank(calls[i]))
  }

  /** The last call of a read, if any. */
  function LastCall(calls: seq<Call>): Option<Call>
  {
    if calls == [] then None else Some(calls[|calls| - 1])
  }

  /** jlog_r_read (main.c:306-382). */
  function Read(s: State, st: ReadStore): (e: Effect)
    ensures !s.hasCtx ==> e == Refused(s)
    // nil on every path that does not raise, whether or not a message was read
    ensures e.outcome == NilReturned || e.outcome.Raise?
    ensures e.after.hasCtx == s.hasCtx && e.after.autoCheckpoint == s.autoCheckpoint
    ensures s.hasCtx ==> (CtxReadInterval in e.calls <==> NeedsResync(s))
    // an interval failure raises and leaves error clear, so the retry is not forced
    ensures s.hasCtx && NeedsResync(s) && IntervalBroken(st.interval) ==>
      e.outcome == Raise(ReadIntervalFailed) && e.after.error == 0 &&
      e.after.last == s.last && e.after.prev == s.prev
    // every answer of "no message" makes the next read query the interval again
    ensures s.hasCtx && e.outcome == NilReturned && e.delivered.None? ==> NeedsResync(e.after)
    ensures e.delivered.Some? ==>
      CtxReadMessage(e.delivered.value) in e.calls && st.message(e.delivered.value).MessageOk? &&
      e.outcome == NilReturned
    // auto-checkpoint: the delivered position is committed and the cursor forgets everything
    ensures e.delivered.Some? && s.autoCheckpoint != 0 ==>
      LastCall(e.calls) == Some(CtxReadCheckpoint(e.delivered.value)) &&
      e.after.start == Epoch && e.after.last == Epoch && e.after.prev == Epoch && e.after.end == Epoch
    ensures e.delivered.Some? && s.autoCheckpoint == 0 ==> e.after.last == e.delivered.value
    // with last unset, the message read is the first of the interval
    ensures s.hasCtx && s.last == Epoch && e.delivered.Some? ==>
      e.delivered.value == (if NeedsResync(s) then st.interval.start else s.start)
  {
    if !s.hasCtx then Refused(s)
    else
      match QueryInterval(s, st.interval)
      case Stopped(e) => e
      case Proceed(g, c1) =>
        match ChoosePosition(g, st.advance)
        case Exhausted(h, c2) => Effect(h, NilReturned, None, c1 + c2)
        case At(h, cur, c2) =>
          var e := ReadAt(h, cur, st.message, st.commit);
          e.(calls := c1 + c2 + e.calls)
  }

  /** A read calls the store at most once per kind, in the order interval, advance, message,
      checkpoint. */
  lemma ReadCallsInOrder(s: State, st: ReadStore)
    ensures InProtocolOrder(Read(s, st).calls)
  {
    if s.hasCtx {
      match QueryInterval(s, st.interval)
      case Stopped(_) =>
      case Proceed(g, c1) =>
        match ChoosePosition(g, st.advance)
        case Exhausted(_, c2) =>
        case At(h, cur, c2) =>
          var c3 := ReadAt(h, cur, st.message, st.commit).calls;
          ShapesInOrder(c1, c2, c3, g.last, g.end, cur);
    }
  }

  /** The traces the three phases of a read can leave, joined, are in protocol order. */
  lemma ShapesInOrder(c1: seq<Call>, c2: seq<Call>, c3: seq<Call>, from: Pos, bound: Pos, cur: Pos)
    requires c1 == [] || c1 == [CtxReadInterval]
    requires c2 == [] || c2 == [CtxAdvanceId(from, bound)]
    requires c3 == [CtxReadMessage(cur)] || c3 == [CtxReadMessage(cur), CtxReadCheckpoint(cur)]
    ensures InProtocolOrder(c1 + c2 + c3)
  {
  }

  /** After a read on an open handle the error flag is 0 or 1, and it is 1 exactly when the
      read ended on a failed message read. */
  lemma ReadErrorFlag(s: State, st: ReadStore)
    requires s.hasCtx
    ensures var e := Read(s, st);
      (e.after.error == 0 || e.after.error == 1) &&
      (e.after.error == 1 <==>
        (match LastCall(e.calls)
         case Some(CtxReadMessage(c)) => st.message(c).MessageFailed?
         case _ => false))
  {
  }

  /** The nil answers that read no message forget the interval but keep prev, and keep last
      unless the store's advance rewrote it. */
  lemma ReadWithoutMessage(s: State, st: ReadStore)
    requires s.hasCtx
    requires Read(s, st).outcome == NilReturned
    requires forall c :: CtxReadMessage(c) !in Read(s, st).calls
    ensures var e := Read(s, st);
      e.after == s.(error := 0, start := Epoch, end := Epoch, last := e.after.last) &&
      ((forall f, b :: CtxAdvanceId(f, b) !in e.calls) ==> e.after.last == s.last)
  {
  }

  /** jlog_r_rewind (main.c:385-398): last goes back to prev, nothing else changes. */
  function Rewind(s: State): (e: Effect)
    ensures !s.hasCtx ==> e == Refused(s)
    ensures s.hasCtx ==>
      e.outcome == Returned(True) && e.after.last == s.prev && e.calls == [] && e.delivered == None
    ensures e.after.(last := s.last) == s
  {
    if !s.hasCtx then Refused(s)
    else Effect(s.(last := s.prev), Returned(True), None, [])
  }

  /** jlog_r_checkpoint (main.c:401-423): commit last if it is set, then forget last, start
      and end; prev is kept and the commit's result is ignored. */
  function Checkpoint(s: State): (e: Effect)
    ensures !s.hasCtx ==> e == Refused(s)
    ensures s.hasCtx ==> e.outcome == Returned(True) && e.delivered == None
    ensures s.hasCtx && s.last == Epoch ==> e.after == s && e.calls == []
    ensures s.hasCtx && s.last != Epoch ==>
      e.calls == [CtxReadCheckpoint(s.last)] &&
      e.after.last == Epoch && e.after.start == Epoch && e.after.end == Epoch &&
      e.after.(last := s.last, start := s.start, end := s.end) == s
  {
    if !s.hasCtx then Refused(s)
    else if s.last != Epoch then
      Effect(s.(last := Epoch, start := Epoch, end := Epoch), Returned(True), None, [CtxReadCheckpoint(s.last)])
    else Effect(s, Returned(True), None, [])
  }

  /** jlog_r_auto_checkpoint (main.c:426-442): with more than one argument, the second one
      (arg, the argument word as a C int) switches the flag to 0 or 1; the flag is returned. */
  function AutoCheckpoint(s: State, argc: int, arg: int): (e: Effect)
    ensures !s.hasCtx ==> e == Refused(s)
    ensures s.hasCtx ==> e.calls == [] && e.delivered == None && e.outcome == Returned(Int(e.after.autoCheckpoint))
    ensures s.hasCtx && argc <= 1 ==> e.after == s
    ensures s.hasCtx && argc > 1 ==>
      e.after == s.(autoCheckpoint := e.after.autoCheckpoint) &&
      (e.after.autoCheckpoint == 1 <==> arg != 0) &&
      (e.after.autoCheckpoint == 0 <==> arg == 0)
  {
    if !s.hasCtx then Refused(s)
    else
      var t := if argc > 1 then s.(autoCheckpoint := if arg != 0 then 1 else 0) else s;
      Effect(t, Returned(Int(t.autoCheckpoint)), None, [])
  }

  /** jlog_close (main.c:198-210): release the session once; afterwards close returns nil. */
  function Close(s: State): (e: Effect)
    ensures !s.hasCtx ==> e == Effect(s, NilReturned, None, [])
    ensures s.hasCtx ==> e == Effect(s.(hasCtx := false), Returned(True), None, [CtxClose])
    ensures !e.after.hasCtx
  {
    if !s.hasCtx then Effect(s, NilReturned, None, [])
    else Effect(s.(hasCtx := false), Returned(True), None, [CtxClose])
  }
}
