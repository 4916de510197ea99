# jlog Ruby binding: the reader cursor and its handle

This project models the C core of the Ruby binding for jlog, an append-only, segmented
journal with named subscribers. The model covers `main.c`.

A Ruby `JLog`, `JLog::Writer` or `JLog::Reader` object wraps one `jlog_obj`. That struct
holds:

- the libjlog context `ctx`, which is NULL once the handle is closed;
- four log positions, `start`, `last`, `prev` and `end`;
- two C ints, `auto_checkpoint` and `error`.

The binding makes the journal look like a pull iterator. Each `read` may call the store
four times: query the readable interval, advance past `last`, read the message at the
chosen position, and, with auto-checkpoint on, commit that position as the subscriber's
checkpoint. The equality tests against the all-zero position `{0, 0}` decide which branch
is taken.

Modules:

- `Positions`: `Pos` (a `jlog_id`, two 32-bit halves) and `Epoch`, the all-zero position.
- `Values`: the Ruby results. `Outcome` is either a returned `Value` or a raised exception
  `Raised`, one constructor per exception text.
- `Store`: libjlog as an outside collaborator, described only by its replies. For a read,
  `ReadStore` holds the interval reply and, as functions of their arguments, what advance,
  message read and checkpoint commit answer. `Call` records one store call. Each handle
  keeps a ghost `trace` of its calls.
- `Cursor`: the pure specification. `State` holds the cursor fields. One function per
  binding function gives the new fields, the Ruby outcome, the position read, and the
  store calls made. `Read` is built from three phase functions: `QueryInterval`,
  `ChoosePosition` and `ReadAt`.
- `Sessions`: sequences of calls on one reader (`Run`), with the lemmas that relate
  several calls.
- `Handle`: the class `JLog`. Its fields are updated in place, and each cursor method is
  proved to match its `Cursor` function. The module also has handle creation
  (`OpenDecision`, `Initialize`), the writer, and the `@subscribers` cache. Two client
  methods walk through scenarios:
  - `ReadRewindRead`: read, rewind, read returns the same position twice.
  - `RemovedSubscriberStaysListed`: after a remove, the cache still lists the name.

Where the code and the design description disagree, the model follows the code:

- `read` returns `nil` on every path, including a successful read (`main.c:377-381`). The
  position it read is kept as the ghost `delivered` result.
- The "no message" paths reset only `start` and `end`, not `last` and `prev`
  (`main.c:326-327`, `341-342`, `347-348`).
- `checkpoint` keeps `prev` (`main.c:417-419`). A `rewind` right after it therefore moves
  `last` back before the committed position, and the next read can read that position again.
- An auto-checkpointed `read` is not quite a `read` followed by `checkpoint`. It also resets
  `prev` (`main.c:368`). It raises on a failed commit, which `checkpoint` ignores
  (`main.c:363-364`, `414`). And it commits a read of the unset position, which `checkpoint`
  skips (`main.c:412`).
- `jlog_populate_subscribers` appends the store's listing to the cache and never clears it
  (`main.c:156-161`). After an add, the cache holds the old names twice. After a remove,
  it still holds the removed name.
- `ALLOC(jlog_obj)` does not zero memory (`main.c:56`). A new handle's positions and flags
  are therefore whatever the allocation held, not `Epoch`. The constructor takes them as a
  parameter.
- `auto_checkpoint` stores a value only with more than one argument, and it reads the
  second one (`main.c:436-438`).
- `write` takes its timestamp from the fourth argument (`main.c:270-271`).
- `initialize` takes its options from the fourth argument (`main.c:60-61`).
- The store's advance receives `last`, `cur` and `end` by pointer (`main.c:345`), so the
  model lets it rewrite all three.

## Model

| member | source | states |
|---|---|---|
| `Cursor.QueryInterval` | main.c:320-332 | the interval is queried only when `error` is set or `start` is `Epoch`, and querying clears `error`; an empty interval, or the "file not open" error, answers nil with `start`/`end` reset and `last`/`prev` kept; any other `-1` raises with `error` left 0; otherwise the store's `start`/`end` are kept and the read goes on |
| `Cursor.ChoosePosition` | main.c:334-351 | with `last` unset the position read is `start`; otherwise the cursor is exhausted, without calling advance, when `prev == end`; it is also exhausted when advance leaves `last == cur`; exhaustion resets only `start`/`end`; a position reached by advancing always differs from `last` |
| `Cursor.ReadAt` | main.c:352-375 | a failed message read sets `error := 1` and keeps every position, and it answers nil for "file not open" and raises otherwise; a message is kept exactly when the read succeeds and either auto-checkpoint is off or the commit succeeds; with auto-checkpoint off `prev`/`last` become old `last`/`cur`; with it on, `cur` is committed and all four positions become `Epoch`, or a failed commit raises with nothing changed |
| `Cursor.Read` | main.c:306-382 | a closed handle raises "Invalid jlog context" and changes nothing; every non-raising path answers nil; the interval is queried iff a resync is due; every "no message" answer leaves the cursor needing a resync; a kept message was read successfully, and with auto-checkpoint on it is the last thing committed and all positions are reset; with `last` unset the message read is the interval's start |
| `Cursor.ReadCallsInOrder` | main.c:320-375 | one read calls the store at most once per kind, in the order interval, advance, message, commit |
| `Cursor.ReadErrorFlag` | main.c:321-360 | after a read on an open handle `error` is 0 or 1, and it is 1 exactly when the read ended on a failed message read |
| `Cursor.ReadWithoutMessage` | main.c:321-350 | a nil answer that read no message leaves `error` 0, `start`/`end` reset and `prev` kept, and it keeps `last` unless the store's advance rewrote it |
| `Cursor.Rewind` | main.c:385-398 | an open handle sets `last := prev`, answers true and changes nothing else; a closed handle raises |
| `Cursor.Checkpoint` | main.c:401-423 | with `last` set, `last` is committed and `last`, `start` and `end` become `Epoch`, while `prev`, `error` and the flag are kept; the commit result is ignored and true is answered; with `last` unset nothing changes; a closed handle raises |
| `Cursor.AutoCheckpoint` | main.c:426-442 | with at most one argument the flag is returned unchanged; otherwise the flag becomes 1 iff the second argument's raw `VALUE` word is non-zero, and the new flag is returned; a closed handle raises. So Ruby `0` and `nil` switch the flag on, and only `false` (the word 0) switches it off |
| `Cursor.Close` | main.c:198-210 | an open handle loses its context and answers true; a closed one answers nil and changes nothing |
| `Sessions.ClosedHandleIsInert` | main.c:306-442 | on a closed handle, any sequence of reads, rewinds, checkpoints, auto-checkpoint calls and closes changes nothing and calls no store; each close answers nil and every other call raises "Invalid jlog context" |
| `Sessions.AutoCheckpointKeepsNoHistory` | main.c:362-375 | with auto-checkpoint on and `last`/`prev` unset, a run of reads, rewinds and checkpoints never sets `last` or `prev`, and every position read during the run is committed as the checkpoint |
| `Sessions.RewindsCollapse` | main.c:395 | any number of rewinds in a row equals one rewind |
| `Sessions.RewindRedelivers` | test.rb:91-97 | read, rewind, read against an unchanged store, with auto-checkpoint off, reads the same position twice |
| `Sessions.CheckpointThenRead` | main.c:412-420 | after checkpointing a set position, the next read queries the interval again, and the message it reads is the start of the interval the store now reports |
| `Sessions.AutoCheckpointSetThenGet` | main.c:436-441 | setting the flag and then reading it returns 1 when the argument's raw `VALUE` word is non-zero and 0 when it is zero (only Ruby `false`) |
| `Sessions.AutoReadAgreesWithCheckpoint` | main.c:362-375 | when the position read is set and its commit succeeds, an auto-checkpointed read and a plain read followed by `checkpoint` (main.c:412-419) read and commit the same position and both reset `last`, `start` and `end`; the auto path resets `prev` too, while `checkpoint` keeps the plain read's `prev` |
| `Sessions.AutoReadDiffersFromCheckpoint` | main.c:362-375 | a failed commit makes the auto-checkpointed read raise and keep nothing, while `checkpoint` ignores the failure and answers true; a read of the unset position is committed by the auto path, while `checkpoint` does nothing |
| `Sessions.RewindAfterCheckpoint` | main.c:385-423 | after `checkpoint` commits `last`, a `rewind` sets `last` to the old `prev`; the next read advances from that `prev`, and against a store that steps from `prev` to the committed position it reads that committed position again |
| `Sessions.CloseTwice` | main.c:204-209 | closing twice is closing once, and the second close answers nil |
| `Handle.CreationOptions` | main.c:52-61 | the options are the fourth argument when more than three are given; otherwise they are O_CREAT without O_EXCL |
| `Handle.OpenDecision` | main.c:67-89 | creation succeeds iff `jlog_new` succeeds and, when O_CREAT is set, the init succeeds or finds an existing journal without O_EXCL, and the reopen succeeds; an existing journal with O_EXCL raises "file already exists", after `jlog_free` closes the context; any other init error raises "Error initializing jlog"; without O_CREAT nothing is initialised |
| `Handle.Initialize` | main.c:49-103 | returns a fresh handle exactly when `OpenDecision` opens; its cache is the store's listing and its cursor fields are the uninitialised allocation; otherwise it raises the decision's exception |
| `Handle.WriteTimestamp` | main.c:270-280 | a timestamp is passed iff more than three arguments are given and the fourth is non-zero, and then it is that value; otherwise the store stamps the message |
| `Handle.JLog.constructor` | main.c:56-58 | a new handle has a context, the given path, an empty cache, and cursor fields taken from the uninitialised allocation |
| `Handle.JLog.Populate` | main.c:142-163 | on an open handle the store's listing is appended to the existing cache; on a closed handle it raises and changes nothing |
| `Handle.JLog.AddSubscriber` | main.c:105-123 | answers true iff the handle is open and the store accepts; a nil `whence` is 0; on false the cache is untouched; on true the store's listing is appended |
| `Handle.JLog.RemoveSubscriber` | main.c:126-140 | answers true iff the handle is open and the store accepts; on true the listing is appended, so a name cached before stays cached |
| `Handle.JLog.ListSubscribers` | main.c:165-181 | an open handle returns the cache without calling the store; a closed one raises |
| `Handle.JLog.RawSize` | main.c:183-196 | an open handle returns the store's size; a closed one raises and calls nothing |
| `Handle.JLog.Close` | main.c:198-210 | follows `Cursor.Close` on the fields and the trace |
| `Handle.JLog.OpenWriter` | main.c:238-253 | a closed handle raises; otherwise a store failure raises "jlog_ctx_open_writer failed" and success answers true |
| `Handle.JLog.Write` | main.c:255-285 | a closed handle raises; otherwise the message is written with `WriteTimestamp`'s choice, and a negative store result answers false instead of raising |
| `Handle.JLog.OpenReader` | main.c:288-303 | a closed handle raises; otherwise a store failure raises "jlog_ctx_open_reader failed" and success answers true |
| `Handle.JLog.Read` | main.c:306-382 | the fields, answer, kept position and store calls are those of `Cursor.Read` |
| `Handle.JLog.QueryInterval` | main.c:320-332 | the fields and store calls are those of `Cursor.QueryInterval`, and it stops exactly when that stops |
| `Handle.JLog.ChoosePosition` | main.c:334-351 | the fields and store calls are those of `Cursor.ChoosePosition`, and it reports exhaustion exactly when that does |
| `Handle.JLog.ReadAt` | main.c:352-375 | the fields, answer, kept position and store calls are those of `Cursor.ReadAt` |
| `Handle.JLog.Rewind` | main.c:385-398 | the fields and answer are those of `Cursor.Rewind` |
| `Handle.JLog.Checkpoint` | main.c:401-423 | the fields, answer and store calls are those of `Cursor.Checkpoint` |
| `Handle.JLog.AutoCheckpoint` | main.c:426-442 | the fields and answer are those of `Cursor.AutoCheckpoint` |

## Left out

- Ruby glue is not modelled: `Init_jlog` registration, `Data_Wrap_Struct`/`Data_Get_Struct`, the `!jo` test, `rb_iv_set` and building the exception object with its error, errstr and errno. A raised exception is modelled only by its kind.
- Registration arities are not modelled. `raw_size` is registered with one argument and `auto_checkpoint` with none. The model follows the C function bodies as written.
- Ruby argument conversion is not modelled. `NUM2INT` range errors, `STR2CSTR`, and a `VALUE` word cast to `int` all fall under this. The model takes the converted value: an `int` for `auto_checkpoint`, an `i32` for the write timestamp, a `bv32` for the options.
- libjlog itself is not modelled: files, segments and the on-disk checkpoint. Each store call becomes a reply passed in as a parameter, and the store calls are recorded in `trace`.
- The message payload is not modelled. A read is described by the position it reads.
- `jlog_destroy` and `jlog_inspect` are not modelled. `jlog_destroy` frees the handle through `jlog_free`, which first closes a context the handle still holds. `jlog_inspect` does nothing. The close `jlog_free` makes when `initialize` rejects an existing journal is modelled (`Handle.OpenDecision`). `jlog_free`'s use as the Ruby finaliser is not modelled.
- The read of `argv[1]` (and, with no arguments, `argv[0]`) beyond the arguments given to `add_subscriber` is not modelled. The C code tests `NIL_P(argv[1])` without looking at `argc`, so a call with one argument reads an undefined word. The model takes both arguments as given, with `None` for an explicit nil.
- The size returned by `raw_size` is a parameter. Its conversion from `size_t` to a Ruby integer is not modelled.
- The `size` option that `initialize` parses (`main.c:62-63`) is never used, so it is not modelled.
- Resource handling on failed creation is not modelled beyond the close above: the context left open when `initialize` raises through `jlog_raise`, and the memory `jlog_free` releases.
- The failure code of `jlog_ctx_list_subscribers` is ignored by the code, and the listing is disposed afterwards. Neither is modelled: the listing is taken to be the names before its NULL terminator.
- `list_subscribers` returns the cached Ruby array itself. Aliasing through that array is not modelled.
- `jlog_ctx_read_checkpoint` receives `&jo->last` or `&cur` by pointer and could write to it. The model ignores such a write, because the code overwrites `last` or no longer uses `cur` afterwards.
- `O_CREAT` and `O_EXCL` take their Linux values (0x40 and 0x80).
- Sessions.RewindRedelivers: proved only for a store whose advance leaves `last` and `end` as given and makes no progress from `end`. The test asserts the property for the real store without stating such conditions.
- Sessions.AutoCheckpointKeepsNoHistory: covers runs without `auto_checkpoint` calls, so the flag stays on throughout.
