/** Sequences of calls on one reader handle, and what holds across them. */
module Sessions {
  import opened Positions
  import opened Values
  import opened Store
  import opened Cursor

  /** One call from Ruby on a reader handle; each read sees the store as st. */
  datatype Op =
    | ReadOp(st: ReadStore)
    | RewindOp
    | CheckpointOp
    | AutoCheckpointOp(argc: int, arg: int)
    | CloseOp

  /** The effect of one call. */
  function Apply(s: State, op: Op): (e: Effect)
    ensures op.CloseOp? ==> !e.after.hasCtx
    ensures !op.CloseOp? ==> e.after.hasCtx == s.hasCtx
  {
    match op
    case ReadOp(st) => Read(s, st)
    case RewindOp => Rewind(s)
    case CheckpointOp => Checkpoint(s)
    case AutoCheckpointOp(argc, arg) => AutoCheckpoint(s, argc, arg)
    case CloseOp => Close(s)
  }

  /** The fields after a run of calls, what each call answered, the positions read and kept,
      and every store call made, in order. */
  datatype Trace = Trace(after: State, outcomes: seq<Outcome>, delivered: seq<Pos>, calls: seq<Call>)

  /** Run the calls one after the other from s. */
  function Run(s: State, ops: seq<Op>): (t: Trace)
    ensures |t.outcomes| == |ops|
    ensures |t.delivered| <= |ops|
    decreases |ops|
  {
    if ops == [] then Trace(s, [], [], [])
    else
      var e := Apply(s, ops[0]);
      var rest := Run(e.after, ops[1..]);
      var kept := match e.delivered case Some(p) => [p] case None => [];
      Trace(rest.after, [e.outcome] + rest.outcomes, kept + rest.delivered, e.calls + rest.calls)
  }

  /** Once closed, a handle stays as it is and calls nothing: close answers nil and every
      other call raises "Invalid jlog context". */
  lemma {:induction false} ClosedHandleIsInert(s: State, ops: seq<Op>)
    requires !s.hasCtx
    ensures Run(s, ops).after == s && Run(s, ops).calls == [] && Run(s, ops).delivered == []
    ensures forall i :: 0 <= i < |ops| ==>
      Run(s, ops).outcomes[i] == (if ops[i].CloseOp? then NilReturned else Raise(InvalidContext))
    decreases |ops|
  {
    if ops != [] {
      ClosedHandleIsInert(s, ops[1..]);
      var t := Run(s, ops);
      forall i | 0 <= i < |ops|
        ensures t.outcomes[i] == (if ops[i].CloseOp? then NilReturned else Raise(InvalidContext))
      {
        if i > 0 {
          assert ops[1..][i - 1] == ops[i];
        }
      }
    }
  }

  /** The calls that leave the auto-checkpoint flag alone. */
  predicate KeepsFlag(op: Op)
  {
    !op.AutoCheckpointOp?
  }

  /** With auto-checkpoint on and no history, reads, rewinds and checkpoints never leave a
      last or prev position behind, and every position read is committed as the checkpoint:
      nothing read is read again from memory, only from the store's durable position. */
  lemma {:induction false} AutoCheckpointKeepsNoHistory(s: State, ops: seq<Op>)
    requires s.autoCheckpoint != 0 && s.last == Epoch && s.prev == Epoch
    requires forall i :: 0 <= i < |ops| ==> KeepsFlag(ops[i])
    ensures Run(s, ops).after.last == Epoch && Run(s, ops).after.prev == Epoch
    ensures Run(s, ops).after.autoCheckpoint == s.autoCheckpoint
    ensures forall p :: p in Run(s, ops).delivered ==> CtxReadCheckpoint(p) in Run(s, ops).calls
    decreases |ops|
  {
    if ops != [] {
      var e := Apply(s, ops[0]);
      assert e.after.autoCheckpoint == s.autoCheckpoint;
      assert e.after.last == Epoch && e.after.prev == Epoch;
      assert forall i :: 0 <= i < |ops[1..]| ==> KeepsFlag(ops[1..][i]);
      AutoCheckpointKeepsNoHistory(e.after, ops[1..]);
      if e.delivered.Some? {
        assert LastCall(e.calls) == Some(CtxReadCheckpoint(e.delivered.value));
      }
    }
  }

  /** Rewinding any number of times in a row is rewinding once. */
  lemma {:induction false} RewindsCollapse(s: State, n: nat)
    requires s.hasCtx && n >= 1
    ensures Run(s, seq(n, _ => RewindOp)).after == s.(last := s.prev)
    decreases n
  {
    var ops := seq(n, _ => RewindOp);
    if n > 1 {
      assert ops[1..] == seq(n - 1, _ => RewindOp);
      RewindsCollapse(Rewind(s).after, n - 1);
    } else {
      assert ops[1..] == [];
    }
  }

  /** A store that never rewrites the last and end slots it is handed, and makes no progress
      when asked to advance from the end itself. */
  ghost predicate SteadyAdvance(st: ReadStore)
  {
    forall from, bound :: var a := st.advance(from, bound);
      a.last == from && a.end == bound && (from == bound ==> a.cur == from)
  }

  /** Read, rewind, read: without auto-checkpoint and against an unchanged store, the second
      read reads the same position as the first. */
  lemma RewindRedelivers(s: State, st: ReadStore)
    requires s.hasCtx && s.autoCheckpoint == 0
    requires SteadyAdvance(st)
    requires Read(s, st).delivered.Some?
    ensures Read(Rewind(Read(s, st).after).after, st).delivered == Read(s, st).delivered
  {
  }

  /** After a checkpoint of a set position, the next read queries the interval again, and
      the message it reads is the first one of the interval the store now reports. */
  lemma CheckpointThenRead(s: State, st: ReadStore)
    requires s.hasCtx && s.last != Epoch
    ensures var e := Read(Checkpoint(s).after, st);
      CtxReadInterval in e.calls &&
      (e.delivered.Some? ==> e.delivered.value == st.interval.start)
  {
  }

  /** An auto-checkpointed read against a plain read followed by checkpoint: when the
      position read is set and the commit succeeds, both read and commit the same position
      and both forget last, start and end; but the auto path forgets prev as well, which
      checkpoint keeps. */
  lemma AutoReadAgreesWithCheckpoint(s: State, st: ReadStore)
    requires s.hasCtx
    requires Read(s.(autoCheckpoint := 0), st).delivered.Some?
    requires var p := Read(s.(autoCheckpoint := 0), st).delivered.value;
      p != Epoch && st.commit(p)
    ensures var r := Read(s.(autoCheckpoint := 0), st);
      var c := Checkpoint(r.after);
      var a := Read(s.(autoCheckpoint := 1), st);
      var p := r.delivered.value;
      a.delivered == r.delivered && a.outcome == NilReturned &&
      c.calls == [CtxReadCheckpoint(p)] && LastCall(a.calls) == Some(CtxReadCheckpoint(p)) &&
      a.after.last == c.after.last == Epoch &&
      a.after.start == c.after.start == Epoch && a.after.end == c.after.end == Epoch &&
      a.after.error == c.after.error &&
      a.after.prev == Epoch && c.after.prev == r.after.prev
  {
  }

  /** Where the two part ways: a failed commit makes the auto-checkpointed read raise and keep
      nothing, while checkpoint ignores it and answers true; and a read of the unset position
      is committed by the auto path but not by checkpoint, which then does nothing. */
  lemma AutoReadDiffersFromCheckpoint(s: State, st: ReadStore)
    requires s.hasCtx
    requires Read(s.(autoCheckpoint := 0), st).delivered.Some?
    ensures var r := Read(s.(autoCheckpoint := 0), st);
      var c := Checkpoint(r.after);
      var a := Read(s.(autoCheckpoint := 1), st);
      var p := r.delivered.value;
      (p != Epoch && !st.commit(p) ==>
         a.outcome == Raise(CheckpointFailed) && a.delivered == None &&
         c.outcome == Returned(True) && c.calls == [CtxReadCheckpoint(p)]) &&
      (p == Epoch ==>
         c.after == r.after && c.calls == [] && CtxReadCheckpoint(Epoch) in a.calls)
  {
  }

  /** checkpoint keeps prev, so a rewind right after it moves last back to a position from
      before the one just committed; the next read advances from there, and against a store
      that steps from prev to the committed position it reads that position again. */
  lemma RewindAfterCheckpoint(s: State, st: ReadStore)
    requires s.hasCtx && s.last != Epoch
    ensures CtxReadCheckpoint(s.last) in Checkpoint(s).calls
    ensures Rewind(Checkpoint(s).after).after.last == s.prev
    ensures var t := Rewind(Checkpoint(s).after).after; var iv := st.interval;
      s.prev != Epoch && iv.cnt > 0 && s.prev != iv.end ==>
        CtxAdvanceId(s.prev, iv.end) in Read(t, st).calls
    ensures var t := Rewind(Checkpoint(s).after).after; var iv := st.interval;
      var a := st.advance(s.prev, iv.end);
      s.prev != Epoch && s.prev != s.last && iv.cnt > 0 && s.prev != iv.end &&
      a.last == s.prev && a.cur == s.last && st.message(s.last).MessageOk? && s.autoCheckpoint == 0 ==>
        Read(t, st).delivered == Some(s.last)
  {
  }

  /** Setting the auto-checkpoint flag and then asking for it gives 0 or 1: whether the
      argument was non-zero. */
  lemma AutoCheckpointSetThenGet(s: State, arg: int)
    requires s.hasCtx
    ensures var t := AutoCheckpoint(s, 2, arg).after;
      AutoCheckpoint(t, 0, 0).outcome == Returned(Int(if arg != 0 then 1 else 0))
  {
  }

  /** Closing twice is closing once; the second close answers nil. */
  lemma CloseTwice(s: State)
    ensures Close(Close(s).after).after == Close(s).after
    ensures Close(Close(s).after).outcome == NilReturned
  {
  }
}
