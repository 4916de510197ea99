/** The jlog handle (jlog_obj behind a JLog, JLog::Writer or JLog::Reader object): its
    fields are updated in place by the binding's functions. The cursor methods are proved
    to do what the functions of module Cursor say; creation, the writer and the subscriber
    cache are specified here directly. */
module Handle {
  import opened Positions
  import opened Values
  import opened Store
  import Cursor

  /** The open(2) flag bits the creation options are tested against (Linux values). */
  const O_CREAT: bv32 := 0x40
  const O_EXCL: bv32 := 0x80

  /** A C int, the type NUM2INT converts a Ruby integer to. */
  type i32 = x: int | -0x8000_0000 <= x < 0x8000_0000

  /** The creation options: the fourth argument when there are more than three, else O_CREAT. */
  function CreationOptions(argc: int, optionsArg: bv32): (o: bv32)
    ensures argc <= 3 ==> o & O_CREAT != 0 && o & O_EXCL == 0
    ensures argc > 3 ==> o == optionsArg
  {
    if argc > 3 then optionsArg else O_CREAT
  }

  /** How creating a handle ends: opened, or refused with an exception. Either way, the
      store calls made on the way, including the close jlog_free makes of a context it
      still holds. */
  datatype Opening = Opened(calls: seq<Call>) | Rejected(e: Raised, calls: seq<Call>)

  /** The decisions of jlog_initialize (main.c:49-103): open the journal, and, when the
      options ask to create it, initialise it first, tolerating an existing journal unless
      the options also ask for exclusive creation; then reopen and list the subscribers. */
  function OpenDecision(argc: int, optionsArg: bv32, st: OpenStore): (r: Opening)
    ensures var o := CreationOptions(argc, optionsArg);
      r.Opened? <==>
        st.newOk &&
        (o & O_CREAT != 0 ==>
           (st.init.Initialized? || (st.init.err == CreateExists && o & O_EXCL == 0)) && st.reopenOk)
    ensures !st.newOk ==> r == Rejected(NewFailed, [CtxNew])
    ensures var o := CreationOptions(argc, optionsArg);
      st.newOk && o & O_CREAT != 0 && st.init == InitError(CreateExists) && o & O_EXCL != 0 ==>
        r == Rejected(AlreadyExists, [CtxNew, CtxInit, CtxClose])
    ensures var o := CreationOptions(argc, optionsArg);
      st.newOk && o & O_CREAT != 0 && st.init.InitError? && st.init.err != CreateExists ==>
        r == Rejected(InitFailed, [CtxNew, CtxInit])
    ensures var o := CreationOptions(argc, optionsArg);
      st.newOk && o & O_CREAT == 0 ==> r == Opened([CtxNew, CtxListSubscribers])
    ensures var o := CreationOptions(argc, optionsArg);
      r.Opened? && o & O_CREAT != 0 ==>
        r.calls == [CtxNew, CtxInit, CtxClose, CtxNew, CtxListSubscribers]
  {
    var o := CreationOptions(argc, optionsArg);
    if !st.newOk then Rejected(NewFailed, [CtxNew])
    else if o & O_CREAT == 0 then Opened([CtxNew, CtxListSubscribers])
    else
      match st.init
      case InitError(err) =>
        if err != CreateExists then Rejected(InitFailed, [CtxNew, CtxInit])
        else if o & O_EXCL != 0 then Rejected(AlreadyExists, [CtxNew, CtxInit, CtxClose])
        else if !st.reopenOk then Rejected(NewFailedAfterInit, [CtxNew, CtxInit, CtxClose, CtxNew])
        else Opened([CtxNew, CtxInit, CtxClose, CtxNew, CtxListSubscribers])
      case Initialized =>
        if !st.reopenOk then Rejected(NewFailedAfterInit, [CtxNew, CtxInit, CtxClose, CtxNew])
        else Opened([CtxNew, CtxInit, CtxClose, CtxNew, CtxListSubscribers])
  }

  /** The timestamp jlog_w_write passes to the store (main.c:270-280): the fourth argument
      when there are more than three and it is not 0; otherwise none, and the store uses
      the current time. */
  function WriteTimestamp(argc: int, tsArg: i32): (ts: Option<int>)
    ensures ts.Some? <==> argc > 3 && tsArg != 0
    ensures ts.Some? ==> ts.value == tsArg
  {
    var t := if argc > 3 then tsArg else 0;
    if t != 0 then Some(t) else None
  }

  class JLog {
    /** False once ctx is NULL (the handle was closed). */
    var hasCtx: bool
    const path: string
    var start: Pos
    var last: Pos
    var prev: Pos
    var end: Pos
    var autoCheckpoint: int
    var error: int
    /** The @subscribers array the handle caches. */
    var subscribers: seq<string>
    /** Every store call made through this handle, in order. */
    ghost var trace: seq<Call>

    /** The cursor fields as a value. */
    function State(): Cursor.State
      reads this
    {
      Cursor.State(hasCtx, start, last, prev, end, autoCheckpoint, error)
    }

    /** A freshly allocated handle whose jlog_new succeeded. The allocation does not clear
        memory, so the cursor fields hold whatever uninitialised holds. */
    constructor (path: string, uninitialised: Cursor.State)
      ensures this.path == path && State() == uninitialised.(hasCtx := true)
      ensures subscribers == [] && trace == [CtxNew]
    {
      this.path := path;
      hasCtx := true;
      start, last, prev, end := uninitialised.start, uninitialised.last, uninitialised.prev, uninitialised.end;
      autoCheckpoint, error := uninitialised.autoCheckpoint, uninitialised.error;
      subscribers := [];
      trace := [CtxNew];
    }

    /** jlog_populate_subscribers (main.c:142-163): push every name the store lists onto
        the cache, after what the cache already holds. */
    method Populate(listing: seq<string>) returns (outcome: Outcome)
      modifies this`subscribers, this`trace
      ensures !hasCtx ==> outcome == Raise(InvalidContext) && subscribers == old(subscribers) && trace == old(trace)
      ensures hasCtx ==>
        outcome == Returned(Nil) && subscribers == old(subscribers) + listing &&
        trace == old(trace) + [CtxListSubscribers]
    {
      if !hasCtx {
        return Raise(InvalidContext);
      }
      trace := trace + [CtxListSubscribers];
      var i := 0;
      while i < |listing|
        invariant 0 <= i <= |listing|
        invariant subscribers == old(subscribers) + listing[..i]
        invariant trace == old(trace) + [CtxListSubscribers]
      {
        subscribers := subscribers + [listing[i]];
        i := i + 1;
      }
      assert listing[..i] == listing;
      return Returned(Nil);
    }

    /** jlog_add_subscriber (main.c:105-123): false, touching nothing, on a closed handle;
        false when the store refuses; otherwise the store's listing is appended to the cache.
        name and whenceArg are the two arguments as given, None standing for an explicit nil:
        a nil subscriber is passed on as NULL and a nil whence as 0. */
    method AddSubscriber(name: Option<string>, whenceArg: Option<int>, rc: int, listing: seq<string>)
      returns (outcome: Outcome)
      modifies this`subscribers, this`trace
      ensures outcome == Returned(if old(hasCtx) && rc == 0 then True else False)
      ensures var whence := match whenceArg case None => 0 case Some(w) => w;
        trace == old(trace) +
          (if !hasCtx then [] else [CtxAddSubscriber(name, whence)] + (if rc == 0 then [CtxListSubscribers] else []))
      ensures subscribers == if hasCtx && rc == 0 then old(subscribers) + listing else old(subscribers)
    {
      var whence := match whenceArg case None => 0 case Some(w) => w;
      if !hasCtx {
        return Returned(False);
      }
      trace := trace + [CtxAddSubscriber(name, whence)];
      if rc != 0 {
        return Returned(False);
      }
      var _ := Populate(listing);
      return Returned(True);
    }

    /** jlog_remove_subscriber (main.c:126-140): as AddSubscriber; the cache is appended to,
        not reloaded, so the removed name stays listed. */
    method RemoveSubscriber(name: string, rc: int, listing: seq<string>) returns (outcome: Outcome)
      modifies this`subscribers, this`trace
      ensures outcome == Returned(if old(hasCtx) && rc == 0 then True else False)
      ensures trace == old(trace) +
        (if !hasCtx then [] else [CtxRemoveSubscriber(name)] + (if rc == 0 then [CtxListSubscribers] else []))
      ensures subscribers == if hasCtx && rc == 0 then old(subscribers) + listing else old(subscribers)
      ensures name in old(subscribers) ==> name in subscribers
    {
      if !hasCtx {
        return Returned(False);
      }
      trace := trace + [CtxRemoveSubscriber(name)];
      if rc != 0 {
        return Returned(False);
      }
      var _ := Populate(listing);
      return Returned(True);
    }

    /** jlog_list_subscribers (main.c:165-181): the cache, without asking the store. */
    method ListSubscribers() returns (outcome: Outcome)
      ensures hasCtx <==> outcome.Returned?
      ensures hasCtx ==> outcome.v == Names(subscribers)
      ensures !hasCtx ==> outcome.e == InvalidContext
    {
      if !hasCtx {
        return Raise(InvalidContext);
      }
      return Returned(Names(subscribers));
    }

    /** jlog_raw_size2 (main.c:183-196): the store's size, size, on an open handle. */
    method RawSize(size: int) returns (outcome: Outcome)
      modifies this`trace
      ensures !hasCtx ==> outcome == Raise(InvalidContext) && trace == old(trace)
      ensures hasCtx ==> outcome == Returned(Int(size)) && trace == old(trace) + [CtxRawSize]
    {
      if !hasCtx {
        return Raise(InvalidContext);
      }
      trace := trace + [CtxRawSize];
      return Returned(Int(size));
    }

    /** jlog_close (main.c:198-210). */
    method Close() returns (outcome: Outcome)
      modifies this`hasCtx, this`trace
      ensures var e := Cursor.Close(old(State()));
        State() == e.after && outcome == e.outcome && trace == old(trace) + e.calls
    {
      if !hasCtx {
        return Returned(Nil);
      }
      trace := trace + [CtxClose];
      hasCtx := false;
      return Returned(True);
    }

    /** jlog_w_open (main.c:238-253). */
    method OpenWriter(rc: int) returns (outcome: Outcome)
      modifies this`trace
      ensures !hasCtx ==> outcome == Raise(InvalidContext) && trace == old(trace)
      ensures hasCtx ==>
        trace == old(trace) + [CtxOpenWriter] &&
        outcome == if rc != 0 then Raise(OpenWriterFailed) else Returned(True)
    {
      if !hasCtx {
        return Raise(InvalidContext);
      }
      trace := trace + [CtxOpenWriter];
      if rc != 0 {
        return Raise(OpenWriterFailed);
      }
      return Returned(True);
    }

    /** jlog_w_write (main.c:255-285): a store failure is answered with false, not raised. */
    method Write(message: string, argc: int, tsArg: i32, rc: int) returns (outcome: Outcome)
      modifies this`trace
      ensures !hasCtx ==> outcome == Raise(InvalidContext) && trace == old(trace)
      ensures hasCtx ==>
        trace == old(trace) + [CtxWriteMessage(message, WriteTimestamp(argc, tsArg))] &&
        outcome == Returned(if rc < 0 then False else True)
    {
      if !hasCtx {
        return Raise(InvalidContext);
      }
      var ts := 0;
      if argc > 3 {
        ts := tsArg;
      }
      trace := trace + [CtxWriteMessage(message, if ts != 0 then Some(ts) else None)];
      if rc < 0 {
        return Returned(False);
      }
      return Returned(True);
    }

    /** jlog_r_open (main.c:288-303). */
    method OpenReader(subscriber: string, rc: int) returns (outcome: Outcome)
      modifies this`trace
      ensures !hasCtx ==> outcome == Raise(InvalidContext) && trace == old(trace)
      ensures hasCtx ==>
        trace == old(trace) + [CtxOpenReader(subscriber)] &&
        outcome == if rc != 0 then Raise(OpenReaderFailed) else Returned(True)
    {
      if !hasCtx {
        return Raise(InvalidContext);
      }
      trace := trace + [CtxOpenReader(subscriber)];
      if rc != 0 {
        return Raise(OpenReaderFailed);
      }
      return Returned(True);
    }

    /** jlog_r_read (main.c:306-382), in the three phases of Cursor.Read. */
    method Read(st: ReadStore) returns (outcome: Outcome, ghost delivered: Option<Pos>)
      modifies this`start, this`last, this`prev, this`end, this`error, this`trace
      ensures var e := Cursor.Read(old(State()), st);
        State() == e.after && outcome == e.outcome && delivered == e.delivered &&
        trace == old(trace) + e.calls
    {
      if !hasCtx {
        return Raise(InvalidContext), None;
      }
      var stopped;
      stopped, outcome := QueryInterval(st.interval);
      if stopped {
        return outcome, None;
      }
      ghost var t1 := trace;
      var exhausted, cur := ChoosePosition(st.advance);
      if exhausted {
        return Returned(Nil), None;
      }
      ghost var t2 := trace;
      outcome, delivered := ReadAt(cur, st);
      assert trace == old(trace) + (t1[|old(trace)|..] + t2[|t1|..] + trace[|t2|..]);
    }

    /** The interval phase of jlog_r_read (main.c:320-332): when error is set or start is
        unset, clear error and query the interval; stop on an empty or failed query. */
    method QueryInterval(iv: IntervalReply) returns (stopped: bool, outcome: Outcome)
      modifies this`start, this`end, this`error, this`trace
      ensures var p := Cursor.QueryInterval(old(State()), iv);
        (stopped <==> p.Stopped?) &&
        (p.Stopped? ==> State() == p.e.after && outcome == p.e.outcome && trace == old(trace) + p.e.calls) &&
        (p.Proceed? ==> State() == p.s && trace == old(trace) + p.calls)
    {
      stopped, outcome := false, Returned(Nil);
      if error != 0 || start == Epoch {
        error := 0;
        trace := trace + [CtxReadInterval];
        start, end := iv.start, iv.end;
        if iv.cnt == 0 || (iv.cnt == -1 && iv.err == FileOpen) {
          start, end := Epoch, Epoch;
          return true, Returned(Nil);
        } else if iv.cnt == -1 {
          return true, Raise(ReadIntervalFailed);
        }
      }
    }

    /** The position phase of jlog_r_read (main.c:334-351): start when last is unset,
        otherwise what the store's advance gives after last; exhausted when prev already
        reached end or the advance made no progress, and then start and end are forgotten. */
    method ChoosePosition(advance: (Pos, Pos) -> AdvanceReply) returns (exhausted: bool, cur: Pos)
      modifies this`start, this`last, this`end, this`trace
      ensures var p := Cursor.ChoosePosition(old(State()), advance);
        (exhausted <==> p.Exhausted?) && State() == p.s && trace == old(trace) + p.calls &&
        (p.At? ==> cur == p.cur)
    {
      exhausted := false;
      if last == Epoch {
        cur := start;
      } else {
        cur := last;
        if prev == end {
          start, end := Epoch, Epoch;
          return true, cur;
        }
        trace := trace + [CtxAdvanceId(last, end)];
        var a := advance(last, end);
        last, cur, end := a.last, a.cur, a.end;
        if last == cur {
          start, end := Epoch, Epoch;
          return true, cur;
        }
      }
    }

    /** The message phase of jlog_r_read (main.c:352-375), from the position cur. */
    method ReadAt(cur: Pos, st: ReadStore) returns (outcome: Outcome, ghost delivered: Option<Pos>)
      modifies this`start, this`last, this`prev, this`end, this`error, this`trace
      ensures var e := Cursor.ReadAt(old(State()), cur, st.message, st.commit);
        State() == e.after && outcome == e.outcome && delivered == e.delivered &&
        trace == old(trace) + e.calls
    {
      trace := trace + [CtxReadMessage(cur)];
      var m := st.message(cur);
      if m.MessageFailed? {
        error := 1;
        if m.err == FileOpen {
          return Returned(Nil), None;
        }
        return Raise(ReadFailed), None;
      }
      if autoCheckpoint != 0 {
        trace := trace + [CtxReadCheckpoint(cur)];
        if !st.commit(cur) {
          return Raise(CheckpointFailed), None;
        }
        last, prev, start, end := Epoch, Epoch, Epoch, Epoch;
      } else {
        prev := last;
        last := cur;
      }
      return Returned(Nil), Some(cur);
    }

    /** jlog_r_rewind (main.c:385-398). */
    method Rewind() returns (outcome: Outcome)
      modifies this`last
      ensures var e := Cursor.Rewind(old(State()));
        State() == e.after && outcome == e.outcome && e.calls == []
    {
      if !hasCtx {
        return Raise(InvalidContext);
      }
      last := prev;
      return Returned(True);
    }

    /** jlog_r_checkpoint (main.c:401-423). */
    method Checkpoint() returns (outcome: Outcome)
      modifies this`start, this`last, this`end, this`trace
      ensures var e := Cursor.Checkpoint(old(State()));
        State() == e.after && outcome == e.outcome && trace == old(trace) + e.calls
    {
      if !hasCtx {
        return Raise(InvalidContext);
      }
      if last != Epoch {
        trace := trace + [CtxReadCheckpoint(last)];
        last, start, end := Epoch, Epoch, Epoch;
      }
      return Returned(True);
    }

    /** jlog_r_auto_checkpoint (main.c:426-442); arg is the second argument word as a C int. */
    method AutoCheckpoint(argc: int, arg: int) returns (outcome: Outcome)
      modifies this`autoCheckpoint
      ensures var e := Cursor.AutoCheckpoint(old(State()), argc, arg);
        State() == e.after && outcome == e.outcome && e.calls == []
    {
      if !hasCtx {
        return Raise(InvalidContext);
      }
      if argc > 1 {
        autoCheckpoint := if arg != 0 then 1 else 0;
      }
      return Returned(Int(autoCheckpoint));
    }
  }

  /** jlog_initialize (main.c:49-103): create the handle as OpenDecision says, start its
      cache empty and fill it from the store's listing. */
  method Initialize(path: string, argc: int, optionsArg: bv32, st: OpenStore, uninitialised: Cursor.State)
    returns (h: JLog?, outcome: Outcome)
    ensures var d := OpenDecision(argc, optionsArg, st);
      (h != null <==> d.Opened?) &&
      (h == null ==> outcome == Raise(d.e)) &&
      (h != null ==>
        fresh(h) && outcome == Returned(Nil) && h.path == path &&
        h.State() == uninitialised.(hasCtx := true) &&
        h.subscribers == st.listing && h.trace == d.calls)
  {
    var options := if argc > 3 then optionsArg else O_CREAT;
    if !st.newOk {
      return null, Raise(NewFailed);
    }
    h := new JLog(path, uninitialised);
    if options & O_CREAT != 0 {
      h.trace := h.trace + [CtxInit];
      if st.init.InitError? {
        if st.init.err == CreateExists {
          if options & O_EXCL != 0 {
            // jlog_free closes the context it still holds
            h.trace := h.trace + [CtxClose];
            return null, Raise(AlreadyExists);
          }
        } else {
          return null, Raise(InitFailed);
        }
      }
      h.trace := h.trace + [CtxClose, CtxNew];
      if !st.reopenOk {
        return null, Raise(NewFailedAfterInit);
      }
    }
    var _ := h.Populate(st.listing);
    outcome := Returned(Nil);
  }

  /** A reader on a handle whose cursor is cleared: read, rewind, read reads the first
      message of the interval twice. */
  method ReadRewindRead()
  {
    var h := new JLog("/tmp/junit.log", Cursor.State(true, Epoch, Epoch, Epoch, Epoch, 0, 0));
    var st := ReadStore(
      IntervalReply(11, OtherError, Pos(1, 1), Pos(1, 11)),
      (from: Pos, bound: Pos) => AdvanceReply(from, if from == bound then from else bound, bound),
      (at: Pos) => MessageOk,
      (at: Pos) => true);
    var first, d1 := h.Read(st);
    var rewound := h.Rewind();
    var second, d2 := h.Read(st);
    assert first == second == Returned(Nil);
    assert d1 == d2 == Some(Pos(1, 1));
  }

  /** After a successful removal, the handle still lists the removed subscriber: the cache
      is appended to, not reloaded. */
  method RemovedSubscriberStaysListed()
  {
    var h := new JLog("/tmp/junit.log", Cursor.State(true, Epoch, Epoch, Epoch, Epoch, 0, 0));
    var _ := h.Populate(["TestSub", "TestSubRemove"]);
    var removed := h.RemoveSubscriber("TestSubRemove", 0, ["TestSub"]);
    var listed := h.ListSubscribers();
    assert removed == Returned(True);
    assert listed == Returned(Names(["TestSub", "TestSubRemove", "TestSub"]));
  }
}
