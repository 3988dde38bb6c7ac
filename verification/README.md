# A verified model of the write path and its recovery

The server is a pipeline of three stages. Stage 1 frames requests and responses. Stage 2 is a single
thread that executes requests against an in-memory table and numbers the PUTs. Stage 3 writes each
batch of PUTs to a write-ahead log through io_uring and decides, by durability mode, when a client may
be answered. After a crash, `recover` rebuilds the table from a snapshot and the log segments.

The project models that path as one state machine and proves what holds in every reachable state and
over every run, and it models the code that reads the log back and proves that the two fit together.

## How the model is built

* **Formats.** `Bytes`, `WalFormat`, `Wire`, `Snapshot`, `Framing`: little-endian integers, the record
  codec with its 64-bit FNV-1a checksum, request bodies, the snapshot file, response and request frames.
* **Recovery.** `Recovery` has the replay loops and the functions they compute; `SnapshotReplay` and
  `SnapshotRecovery` relate snapshot and log; `EndToEnd` relates execution, encoding and replay.
* **The engine.** `WalCore` gives each step of the WAL engine as a function of its state. `WalEngine`
  is the engine as the mutable object it is, with its loops, its slab and its segment and planner
  objects, each method proved to carry out the `WalCore` function. `FsyncPlanner`, `IoWork`, `Acker`,
  `Stage2`, `Types` hold its parts. `Db` is the table with shared, counted value buffers.
* **The system.** `Pipeline` puts stage 2, the channel, the engine, the kernel and the files together.
  A run is any interleaving of eleven steps: take a batch, post a Rotate or Retire message, receive a
  message, evaluate the fsync planner, submit from the front of `pending`, complete a write (in full,
  short, or with any error), an fsync, an unlink, fail an fsync, reap one completion, finish a rotation. Of
  the kernel only the IOSQE_IO_DRAIN rule of io_uring_enter(2) is used, and that completions are reaped in
  the order they were posted.
* **The argument.** Everything outstanding stands in one line: completions posted, then operations in
  the ring, then `pending`. Each step edits that line in one of six ways. `IoLine`, `LossWindow`,
  `FsyncDuty` and `SmoothRun` prove what each edit keeps, byte position by byte position; `Storage`,
  `Routing`, `Batches`, `BatchSteps`, `Durability`, `Replies`, `Outstanding`, `Buffers`, `Content` lift
  this to the steps of the system; `Runs` to whole runs. `Theorems` states the results; `Cadence` says when
  fsyncs are queued, `Messages` what Rotate and Retire come to, `Readiness` when the engine can go on,
  `ByteAnswers` what clients are answered in terms of the bytes they sent, `Limits` which sizes hold throughout.
* **Crashes.** `CrashFiles` says what a crash may leave of a segment, in two ways. `Survives`: everything
  fsynced, and of the rest anything at all; then the first record the crash broke has to fail to decode.
  `CrashImage`: everything fsynced; of the rest, each batch as it is or as it was last fsynced, and the file
  cut at any byte past its fsynced length; then nothing is assumed of the checksum. `LogOrder`, `CalmSteps`,
  `SteadySteps`, `TornBatches` and `CrashReplay` lead to the theorems of `CrashRecovery` and `CrashExact`.
* **Compaction and restarts.** `Retirement` adds snapshots and unlinked segments; `Compaction` derives what it
  needs from the messages stage 2 sends; `Restart` puts one run after another.
* **Counterexamples.** `Witness` has concrete runs that show which stronger statements are false, in the
  step order of the engine's loop, which `EngineLoop` states.

## Where the obvious statement is false

* **Retry across an fsync.** A write that is interrupted goes back to `pending` while an fsync behind it
  may complete and answer a later batch. `Witness.RetriedWriteLosesAnswered` is such a run in Sync mode:
  a crash that keeps every byte then loses the answered PUT. `CrashRecovery.CrashRecovers` therefore asks
  that no write be short or retried. `CrashExact.SurvivesExactly` says which answered PUTs are safe
  otherwise: exactly those with every earlier batch of their segment fsynced; it is not enough that the
  retried write has reached the file. That what is recovered is the state after some prefix of the
  requests needs only that the tear be seen (`CrashRecovery.LegibleRecovers`), which it is without any help
  from the checksum if no batch is torn at the crash (`CrashRecovery.PrefixRecovers`), and
  `Theorems.AnsweredPutOnDisk` needs nothing of the kind.
* **The run after a crash.** `recover` stops at the first torn record and leaves it in its segment, and
  start-up opens a new one behind it. `Restart.SecondRun`: what the next run does is recovered if and only if
  the crash left the log ending on a record; otherwise recovery after it returns what the first recovery did,
  however much was made durable and answered since (`TornStartLoses`, `TornRestartExample`).
* **Parking.** `should_park` looks only at `pending` and the ring. `Witness.ParkedWhileOwed` reaches a
  state in which the engine parks while a batch waits for durability. What holds is that the obligation
  is remembered (`Theorems.FsyncObligations`) and acted on at the next evaluation (`ObligationArms`).
* **Unknown opcodes** wait for the mode's level, yet a batch without a PUT is recycled once applied.
  `Theorems.UnknownAnswered`: they are answered exactly when their batch reaches the level, which outside
  the WAL batches it does in NoFsync mode only; `Witness.UnknownDropped` is one that is not.
* **A snapshot ahead of the log.** If the log ends before the state a snapshot holds, recovery may not
  return that state: `SnapshotRecovery.SnapshotAheadOfLog` says exactly when it does, and
  `SnapshotAheadExample`, with a label three below the contents, is a point where it returns a map that was
  never the server's. The source labels its snapshots one below (crates/server/src/stage2/mod.rs:101-106), and
  with that label recovery always returns the state after a prefix (`OwnLabelRecovers`).
* **A record shorter than its LSN.** `decode_record` is documented to return `None` on a damaged tail,
  but a length below 8 with a matching checksum makes it panic; `WalFormat.PanicsExactly` says when.
* **Levels.** README.md:53-55 of the repository describes `nofsync` and `async` differently from
  crates/server/src/acker.rs:18-26; the model follows the code (NoFsync answers once applied, Async once
  written, Sync once durable).

## Model

| member | source | states |
|---|---|---|
| `CrashRecovery.CrashRecovers` | crates/storage/src/lib.rs:11-59 | A run from cleanly read segments, with no write short or retried, no rotation back and no unlink, crashes after any number of steps, keeping all fsynced bytes, perhaps losing any other batch, and cutting the file anywhere past them: recovery returns the map after a prefix of the requests; in Sync mode the prefix has every answered PUT, and numbering resumes above them |
| `CrashRecovery.LegibleRecovers` | crates/storage/src/lib.rs:11-59 | In any mode, with short, interrupted and retried writes, the crash keeps all fsynced bytes and does anything to the others; if what stands where the first broken record should be fails to decode, recovery returns the map after a prefix of the requests; a PUT is in it exactly if its LSN is below the next one, and surely if its batch and all earlier ones of its segment are fsynced |
| `CrashRecovery.PrefixRecovers` | crates/storage/src/lib.rs:11-59 | The same with nothing assumed of the checksum, for crashes that lose whole batches or cut the file off: no batch is torn at the crash, but a short write may be unfinished at the end of the file |
| `CrashRecovery.InterruptedRecovers` | crates/server/src/stage3/io_work.rs:82-84 | In runs whose writes are interrupted and retried in any way, each attempt writing everything or nothing, recovery after a crash at any point returns the map after a prefix of the requests |
| `CrashExact.SurvivesLegibly` | crates/server/src/stage3/mod.rs:310-323 | In Sync mode, with short, interrupted and retried writes, an answered PUT is recovered from everything a crash may leave in which the tear is seen, if and only if every earlier batch of its segment is fsynced |
| `CrashExact.SurvivesExactly` | crates/server/src/stage3/io_work.rs:79-96 | The same with nothing assumed of the checksum, for crashes that lose whole batches or cut the file off; a short write may be unfinished at the end of the file |
| `CrashRecovery.NoTornLegible` | crates/storage/src/wal_format.rs:75-94 | As long as no batch has a gap with more data behind it, and none is partly fsynced, every tear such a crash leaves is seen whatever the checksum |
| `Compaction.CompactionRecovers` | crates/server/src/stage2/mod.rs:99-112 | In every run that posts Rotate and Retire as stage 2 does, with the snapshot stage 2 took at or after the last Rotate, recovery from snapshot and remaining segments after any crash in which the tear is seen returns the state after a prefix of the requests, with everything the snapshot has and every batch that is safe |
| `Compaction.CompactionAnswered` | crates/server/src/stage2/mod.rs:99-112 | In Sync mode and without short or retried writes, that prefix has every answered PUT |
| `Compaction.CompactionQuiet` | crates/server/src/stage2/mod.rs:99-112 | Without a crash, in every mode, recovery from that snapshot and the segments left returns exactly the map stage 2 holds |
| `Compaction.CompactedAlways` | crates/server/src/stage2/mod.rs:99-112 | Every segment such a run has ever unlinked holds only records the snapshot covers, and the snapshot's label is one below its contents |
| `Compaction.CompactingForward` | crates/server/src/stage2/mod.rs:106-108 | In such runs no rotation goes back to a lower name |
| `Compaction.NeverPanics` | crates/server/src/stage3/mod.rs:226-232 | In such runs stage 3 can always take the next message: the panic of `retire` and the assertions of `handle_batch` are unreachable |
| `Restart.SecondRun` | crates/storage/src/lib.rs:25-33 | A run crashes, a second one is started over what is left and ends with nothing lost: recovery returns the second run's map if and only if the crash left the log ending on a record or the second run took no PUT; otherwise it returns what the first recovery returned |
| `Restart.TornStartLoses` | crates/storage/src/lib.rs:29-33 | A run started over a tear is lost: whatever it executed, fsynced and answered, and whatever happens to its own segments, recovery returns the map it started with |
| `Restart.LineageRecovers` | crates/server/src/main.rs:67-105 | Over any number of runs, each started over what the one before it left once quiet, a crash in the last one recovers to the map after all requests of the earlier runs and a prefix of its own |
| `Restart.QuietRestarts` | crates/server/src/main.rs:67-105 | A run without unlinks that ends quiet leaves a clean start for the next run, from the map stage 2 held and an LSN not below its last |
| `Restart.CompactionRestarts` | crates/server/src/main.rs:67-105 | So does a run with compaction as stage 2 carries it out, over its snapshot, with no condition on segment names |
| `Restart.CrashRestarts` | crates/storage/src/lib.rs:24-58 | The start-up after a crash is clean if the crash left the log ending on a record, and over a tear otherwise |
| `Restart.TornRestartExample` | crates/storage/src/lib.rs:29-33 | A record, one byte of a second, and a whole record in the next segment: recovery returns the first record only, and both without the byte |
| `Retirement.RetiredRecovers` | crates/server/src/stage3/mod.rs:226-245 | With a snapshot labelled as the source labels it and segments unlinked, in any order, whose records the snapshot's contents cover, recovery after any crash in which the tear is seen returns the state after a prefix of the requests, at least the snapshot's, with every batch that is safe; numbering does not fall behind it |
| `Retirement.RetiredAnswered` | crates/server/src/stage2/mod.rs:99-112 | In Sync mode and without short or retried writes, that prefix has every answered PUT |
| `Retirement.RetiredQuiet` | crates/server/src/stage3/mod.rs:226-245 | Without a crash, in every mode and whatever was retried, recovery from the snapshot and the segments left returns exactly the map stage 2 holds |
| `Theorems.AnsweredPutOnDisk` | crates/server/src/stage3/mod.rs:297-326 | Sync mode, retries allowed: a PUT has been answered only if a completed fsync (the seal of a rotation included) covered every byte of its batch, and its own record with its own LSN is among those bytes |
| `Theorems.AnsweredPutWritten` | crates/server/src/stage3/mod.rs:289-308 | Sync and Async mode, retries allowed: a PUT has been answered only if the file holds its whole batch, encoded, at its place |
| `Theorems.QuietSegments` | crates/server/src/stage3/mod.rs:158-195 | Whatever the completion order, short writes and retries, once no write is pending or in flight every segment holds its bytes at open followed by its batches' records, in LSN order, gap-free; outstanding write ranges are disjoint |
| `Theorems.QuietRecovery` | crates/storage/src/lib.rs:24-58 | In every mode and with retries, once the channel is drained and no write is outstanding, recovery of the segments returns exactly the map stage 2 holds, and the next LSN above all used |
| `Theorems.FsyncObligations` | crates/server/src/stage3/fsync_planner.rs:42-67 | Sync mode: `flush_running` exactly while one fsync is pending or in flight, never two; every unfinished write and every waiting batch has that fsync ahead or keeps `dirty_bytes` above zero |
| `Theorems.ObligationArms` | crates/server/src/stage3/mod.rs:120-124 | After the planner is evaluated, a waiting batch always has an fsync pending or in flight |
| `Theorems.LossBounded` | crates/server/src/stage3/fsync_planner.rs:15-67 | The bytes neither durable nor ahead of an armed fsync never outnumber `dirty_bytes`; in Async mode they are fewer than 1 MiB after each evaluation |
| `Theorems.LsnAgreement` | crates/server/src/stage3/mod.rs:158-181 | Stage 3's gap assertion and PUT-count assertion hold at every batch of every run, and the records encoded are exactly that stretch of stage 2's numbering |
| `Theorems.PutInBatch` | crates/server/src/stage2/mod.rs:15-41 | The record of each PUT carries exactly the LSN stage 2 assigned to it, in the batch that took it |
| `Theorems.BatchNumbering` | crates/server/src/types.rs:26-32 | The records of a batch are those between its two watermarks in the numbering of the whole history |
| `Theorems.RotationSafety` | crates/server/src/stage3/mod.rs:197-245 | Under any mix of Write, Rotate and Retire, each operation in the ring has the active segment's descriptor, each outstanding write was placed in that segment, and each queued or submitted unlink names a lower one |
| `Theorems.BufferConservation` | crates/server/src/main.rs:79-83 | Each of the 32 buffers is in exactly one place; pooled ones are cleared; the waiting list holds at most 32 and is empty outside Sync mode |
| `Theorems.ExactlyOnce` | crates/server/src/acker.rs:43-67 | Every GET is answered exactly once, every PUT at most once, and an unanswered PUT's batch is still in the channel, in the line of I/O or waiting: none is recycled first |
| `Theorems.RepliesRight` | crates/server/src/acker.rs:53-61 | Every reply goes to the request's own connection, is sent at no less than the required level, and is right: a GET gets the value that the last PUT of its key before it wrote, or what the map held at start-up, or Miss; a PUT gets Ok and an unknown opcode UnknownOp, all said in terms of the request bytes |
| `Theorems.UnknownAnswered` | crates/server/src/stage2/mod.rs:89-97 | A request with an unknown opcode is answered exactly when its batch reaches the mode's level, and until then the batch is under way; outside the WAL batches it is answered exactly once in NoFsync mode and never otherwise |
| `Theorems.NoFsyncSequential` | crates/server/src/stage2/mod.rs:74-89 | NoFsync mode: for every interleaving and batch split each connection's replies are those of a plain sequential map, in request order, and reply number n is the right answer by the bytes to request number n |
| `ByteAnswers.AnswerRight` | crates/server/src/stage2/mod.rs:15-41 | Sequential execution answers every request of every history as the bytes demand: the last PUT of the key, the starting map, Miss, Ok or UnknownOp |
| `ByteAnswers.AnswerUnique` | crates/server/src/stage2/mod.rs:18-38 | No request has two right answers |
| `ByteAnswers.ExecLookup` | crates/server/src/stage2/mod.rs:28-34 | After any requests, a key holds what its last PUT wrote, or what it held before |
| `Theorems.ServedInOrder` | crates/server/src/stage3/mod.rs:300-321 | Batches wait for an fsync in the order in which their writes were reaped, and the fsync answers them in that order |
| `Cadence.FsyncExactly` | crates/server/src/stage3/fsync_planner.rs:42-61 | In every reachable state a step queues an fsync if and only if it evaluates the planner and the mode asks for one: Sync with something dirty and no fsync pending or in flight, Async at 1 MiB, NoFsync never |
| `Cadence.NoFsyncNever` | crates/server/src/stage3/fsync_planner.rs:15-23 | In NoFsync mode no reachable state has an fsync pending or in flight |
| `Cadence.DirtyExactly` | crates/server/src/stage3/fsync_planner.rs:42-67 | `dirty_bytes` grows by exactly the bytes a batch adds to the segment and by what is left of a repeated write, goes to zero when an fsync is queued, and is changed by nothing else |
| `FsyncPlanner.DueByMode` | crates/server/src/stage3/fsync_planner.rs:15-23 | When the planner is due, by mode and with the 1 MiB limit |
| `Messages.RetireQueues` | crates/server/src/stage3/mod.rs:234-243 | Receiving a Retire queues, behind what is pending, one unlink for each segment in the directory below the boundary, ascending, and no other |
| `Messages.RetiredGoes` | crates/server/src/stage3/mod.rs:226-245 | From then on, in every run whose rotations go forward, a segment below the boundary is gone, or its unlink is queued or in the ring, or the kernel failed to remove it |
| `Messages.RetiredGone` | crates/server/src/stage3/mod.rs:226-245 | Once the unlinks are done and none failed, no name below the boundary is left in the directory |
| `Messages.RotateTakesEffect` | crates/server/src/stage3/mod.rs:197-224 | From the receipt of a Rotate no other message is taken until the rotation ends; then the named segment is active and open at its end, the old one is fsynced and nobody waits |
| `Readiness.RotatesExactly` | crates/server/src/stage3/mod.rs:197-224 | A rotation can end exactly when nothing is pending, in the ring or posted |
| `Readiness.ReceivesExactly` | crates/server/src/stage3/mod.rs:226-232 | Stage 3 can take the next message unless a rotation waits or it is a Retire above the active segment, at which the source panics |
| `Limits.LimitsAlways` | crates/server/src/stage3/mod.rs:257-281 | In every state the ring holds at most `depth` operations, every batch sent has at most 1024 requests and no request exceeds 8 MiB |
| `Witness.RetriedWriteLosesAnswered` | crates/server/src/stage3/mod.rs:310-323 | A run in loop order in which one write, interrupted twice, is retried across an fsync and a crash that keeps every byte then loses an answered PUT |
| `Witness.ParkedWhileOwed` | crates/server/src/stage3/mod.rs:98-124 | A run in loop order at whose end the engine parks while a batch waits for durability and `dirty_bytes` remembers it |
| `Witness.UnknownDropped` | crates/server/src/stage2/mod.rs:89-97 | A run after which a request with an unknown opcode is unanswered and its batch recycled |
| `Readiness.CanAlwaysReap` | crates/server/src/stage3/mod.rs:283-333 | In every state satisfying the invariants a posted completion can be reaped, unless it reports an unrecoverable error: it has a work item and a well-formed batch |
| `Runs.InvAlways` | crates/server/src/stage3/mod.rs:108-140 | All eight invariants hold in every state of every run |
| `Runs.TidyAlways` | crates/storage/src/wal_format.rs:9-28 | In runs whose rotations never go back, listing by name every segment there has been, unlinked or not, gives their old content, then every record placed, in LSN order |
| `Runs.SmoothAlways` | crates/server/src/stage3/io_work.rs:60-68 | In runs without short or retried writes, what an fsync has made durable is always a gap-free prefix of the segment |
| `Runs.SteadyAlways` | crates/server/src/stage3/io_work.rs:79-96 | In runs whose writes are each carried out in full or not at all, no batch is ever torn, in the file or in what was last fsynced of it, through any number of retries |
| `Routing.RouteStep` | crates/server/src/stage3/mod.rs:265-273 | Every step keeps the pairing of operations with the active segment's descriptor and unlinks below it |
| `Batches.AssertionsHold` | crates/server/src/stage3/mod.rs:159-179 | A batch at the head of the channel starts at stage 3's watermark and has as many PUTs as its watermarks say |
| `BatchSteps.BatchStep` | crates/server/src/stage2/mod.rs:61-97 | Every step keeps the tiling of the history by batches and, in each batch under way, exactly the responses not yet due |
| `Storage.IoStep` | crates/server/src/stage3/mod.rs:257-333 | Every step keeps the file, the line of outstanding I/O, the loss window and the fsync duty in order |
| `Durability.DurableStep` | crates/server/src/stage3/mod.rs:297-326 | Every step keeps each level true: written batches are in the file, durable ones in its fsynced bytes |
| `Durability.WaiterSynced` | crates/server/src/stage3/mod.rs:317-323 | When the completion of an fsync is reaped, every byte of every waiting batch has been fsynced |
| `Replies.ReplyStep` | crates/server/src/acker.rs:53-61 | Every step keeps the number of replies to a request at one if its batch has reached its level, and zero otherwise |
| `Outstanding.OutStep` | crates/server/src/stage3/mod.rs:289-323 | Every step keeps each ingested batch outstanding, waiting, or at the mode's level; and NoFsync replies in order |
| `Buffers.BufferStep` | crates/server/src/types.rs:46-56 | Every step keeps the multiset of buffers over all places equal to the 32 |
| `Content.ContentStep` | crates/server/src/stage3/segment.rs:43-47 | Every step keeps each file's plan equal to its old bytes and its batches' records, each batch starting where the last ended |
| `LogOrder.TidyStep` | crates/server/src/stage3/mod.rs:222-224 | Every step whose rotation does not go back keeps the listed segments equal to old content, then this run's records in order |
| `CalmSteps.SmoothStep` | crates/server/src/stage3/io_work.rs:60-68 | Every calm step keeps unfinished writes in file order, beyond everything fsynced |
| `SteadySteps.SteadyStep` | crates/server/src/stage3/mod.rs:310-315 | Every steady step keeps each outstanding write whole or absent |
| `SteadySteps.SteadyEntire` | crates/server/src/stage3/mod.rs:310-315 | Every steady step keeps each batch whole or absent in what was last fsynced |
| `IoLine.PostWrite` | crates/server/src/stage3/io_work.rs:79-96 | A write completing out of order, in full or short, keeps every byte either landed or claimed and every hole zero |
| `IoLine.PostFlush` | crates/server/src/stage3/io_work.rs:60-68 | A drained fsync makes durable everything except bytes not landed and bytes of writes completed after it |
| `IoLine.RequeueHead` | crates/server/src/stage3/mod.rs:310-315 | Putting a short write back in front, resumed at its first unwritten byte, loses no byte and no guarantee of an fsync already posted |
| `IoLine.TakeHead` | crates/server/src/stage3/mod.rs:284-308 | Reaping a complete write or an fsync keeps every byte accounted for |
| `IoLine.AppendWrite` | crates/server/src/stage3/mod.rs:183-194 | Queueing a batch at the reserved offset extends what the file is to hold and keeps ranges disjoint |
| `IoLine.QuietFileComplete` | crates/server/src/stage3/mod.rs:203-208 | With no write left in the line the file is exactly what it should be |
| `LossWindow.WindowRequeue` | crates/server/src/stage3/mod.rs:310-313 | Counting a retried write's bytes again keeps the exposed bytes within `dirty_bytes` |
| `LossWindow.WindowArm` | crates/server/src/stage3/fsync_planner.rs:52-55 | Arming an fsync leaves no byte exposed, so `dirty_bytes` may drop to zero |
| `FsyncDuty.DutyArm` | crates/server/src/stage3/fsync_planner.rs:49-55 | Arming when no flush is running gives every unfinished write and every waiter an fsync behind it |
| `FsyncDuty.DutyFlushed` | crates/server/src/stage3/mod.rs:317-326 | Reaping the fsync leaves no flush running and no obligation forgotten |
| `SmoothRun.SmoothFlush` | crates/server/src/stage3/io_work.rs:60-68 | Without retries, what a drained fsync makes durable has no hole |
| `IoWork.CompleteExactly` | crates/server/src/stage3/io_work.rs:79-113 | For every operation and every result: fatal exactly if an fsync fails or a write fails with anything but EINTR and EAGAIN; a flush exactly if an fsync succeeds; an unlink ends however it went |
| `IoWork.CompleteResumes` | crates/server/src/stage3/io_work.rs:79-96 | A retry resumes at the first unwritten byte and only a fully written batch is handed back |
| `Acker.Advance` | crates/server/src/acker.rs:53-61 | Takes exactly the due responses out of the batch and sends them in item order |
| `Acker.SentCount` | crates/server/src/acker.rs:53-61 | Advancing a batch sends each of its requests at most one reply, exactly if it still holds a response that is due |
| `Stage2.RecsNumbered` | crates/server/src/stage2/mod.rs:13-41 | LSNs are consecutive from just above the watermark, one for each PUT and only for PUTs |
| `Stage2.ExecAppend` | crates/server/src/stage2/mod.rs:15-41 | Executing two batches in turn is executing their concatenation |
| `Stage2.RecsAppend` | crates/server/src/stage2/mod.rs:15-41 | Numbering two batches in turn is numbering their concatenation |
| `FsyncPlanner.Planner.Poll` | crates/server/src/stage3/fsync_planner.rs:42-61 | True exactly if something is dirty and the cadence is Consistently with no flush running, or the byte limit is reached; a true answer clears the window and marks a flush running |
| `WalEngine.WalEngine.constructor` | crates/server/src/stage3/mod.rs:60-93 | A new engine starts at the recovered LSN with nothing pending, in flight or waiting |
| `WalEngine.EncodeBatch` | crates/server/src/stage3/mod.rs:166-176 | The loop appends one record for each PUT, numbered upwards from the low watermark |
| `WalEngine.WalEngine.HandleBatch` | crates/server/src/stage3/mod.rs:158-195 | The object's state afterwards is the ingestion function of the state before |
| `WalEngine.WalEngine.ArmFsync` | crates/server/src/stage3/mod.rs:120-124 | Queues an fsync exactly if the planner asks for one |
| `WalEngine.WalEngine.HandlePending` | crates/server/src/stage3/mod.rs:257-280 | Moves the longest prefix of `pending` that room and depth allow into the ring, in order, under unused slab indices and the current descriptor |
| `WalEngine.WalEngine.ReapCqes` | crates/server/src/stage3/mod.rs:283-333 | Reaping by slab key equals reaping the submitted work in posting order, and panics exactly if some completion reports a failed fsync or a write error other than EINTR and EAGAIN |
| `WalEngine.WalEngine.ReapOne` | crates/server/src/stage3/mod.rs:289-326 | One completion changes the engine, the replies and the recycled buffers as the reaping function says |
| `WalEngine.WalEngine.SettleWaiters` | crates/server/src/stage3/mod.rs:319-323 | Every waiting batch is answered at Durable and its cleared buffer returned, in order |
| `WalEngine.WalEngine.FinishRotate` | crates/server/src/stage3/mod.rs:210-223 | With the ring drained, serves the waiters and opens the next segment at its end |
| `WalEngine.WalEngine.Retire` | crates/server/src/stage3/mod.rs:226-245 | Queues unlinks of exactly the segments below the boundary, oldest first; panics exactly if the active one is below it |
| `WalEngine.SlabFinds` | crates/server/src/stage3/mod.rs:285-287 | The slab index of any completion still finds the work its entry was submitted for |
| `WalEngine.KeepIsBelow` | crates/storage/src/wal_format.rs:9-28 | Filtering the sorted listing gives the names below the boundary in order |
| `Db.Table.Get` | crates/storage/src/db.rs:24-26 | Answers from the map and shares the stored buffer |
| `Db.Table.Put` | crates/storage/src/db.rs:31-42 | The table becomes the updated map, in place or not, and every response handed out keeps its bytes |
| `Db.Table.Overwrite` | crates/storage/src/db.rs:34-36 | A buffer with a count of one is held by no response, so writing into it changes the map at that key and nothing anyone else reads |
| `Db.Table.InsertRaw` | crates/storage/src/db.rs:62-64 | The table becomes the updated map with a buffer of its own in the slot |
| `Db.Table.Release` | crates/server/src/acker.rs:56-58 | Letting go of a sent response keeps all counts right |
| `Db.Table.Apply` | crates/server/src/stage2/mod.rs:15-41 | A batch leaves the table as sequential execution does, counts its PUTs, and each response reads, after the whole batch, as the answer at its own point, which is the right one by the request bytes |
| `Db.CopyFromSlice` | crates/storage/src/db.rs:34-36 | The in-place overwrite leaves the buffer equal to the new value |
| `Recovery.Recover` | crates/storage/src/lib.rs:11-59 | The nested loops compute the replay of the snapshot and the segments in order, stopping at the first torn record, or crash where an accessor panics |
| `Recovery.OneRecord` | crates/storage/src/lib.rs:29-46 | What one record with any body does: a PUT is applied, another opcode only moves the next LSN, an empty body or an overlong key crashes recovery |
| `Recovery.BadSnapshot` | crates/storage/src/lib.rs:17-22 | A file that is no snapshot counts as none, and one on which `load` panics crashes recovery |
| `Recovery.ReplayLog` | crates/storage/src/lib.rs:29-48 | Replay of an encoded log applies its PUTs above the snapshot in order and goes on with what follows |
| `Recovery.TornTail` | crates/storage/src/lib.rs:29-48 | A log cut at any byte replays exactly the records wholly before the cut, and is reported torn exactly unless the cut is between records; nothing is assumed of the checksum |
| `Recovery.WholeBeforeExact` | crates/storage/src/wal_format.rs:75-101 | The number of records wholly before a cut is the largest whose encoding fits |
| `Recovery.HoleStopsReplay` | crates/storage/src/lib.rs:30-33 | A log followed by a hole of zeroes replays the log and stops, whatever lies beyond |
| `CrashRecovery.ReplayListing` | crates/storage/src/lib.rs:24-49 | Whatever a crash leaves of the listed segments, if the tear is seen, replays to their records in order, exactly up to the first gap in the active one, and to its end exactly if nothing follows that record |
| `CrashFiles.ReplayActive` | crates/storage/src/lib.rs:29-48 | Any image of the active segment in which the tear is seen replays to exactly the records before its first gap |
| `CrashReplay.CutSeen` | crates/storage/src/wal_format.rs:76-86 | A log cut at any byte has its tear seen |
| `CrashReplay.HoleSeen` | crates/storage/src/wal_format.rs:75-94 | A hole of zeroes at a record boundary is seen, and replay has exactly the records before it |
| `CrashReplay.ReplayOnward` | crates/storage/src/lib.rs:29-48 | Bytes that replay cleanly are transparent to what follows them |
| `CrashRecovery.AnsweredSynced` | crates/server/src/stage3/mod.rs:317-323 | Sync mode: the batch of an answered PUT is placed and fsynced in full |
| `EndToEnd.BatchesRecover` | crates/server/src/stage3/mod.rs:166-176 | For any requests and any split into batches, recovery of the bytes stage 3 encodes returns the map stage 2 holds and an LSN above all used |
| `EndToEnd.SplitIrrelevant` | crates/server/src/stage3/mod.rs:166-176 | The split into batches leaves no trace in the log |
| `EndToEnd.ExecIsPutAll` | crates/server/src/stage2/mod.rs:28-34 | Executing requests and replaying the records of their PUTs give the same map |
| `EndToEnd.PrefixFor` | crates/storage/src/lib.rs:24-49 | Any prefix of the log is the PUTs of some prefix of the requests |
| `SnapshotRecovery.SnapshotRecovers` | crates/storage/src/lib.rs:17-46 | A snapshot file written in any order and holding the state at any point at or past its label, with segments from before the label on, recovers to the full replay from empty, and resumes above every LSN |
| `SnapshotRecovery.SnapshotAheadOfLog` | crates/storage/src/lib.rs:17-46 | With a log that ends before the snapshot's state, recovery returns that state if the log ends at or below the label, and past it if and only if each key the log still writes above the label is, at the snapshot, as the log left it |
| `SnapshotRecovery.OwnLabelRecovers` | crates/server/src/stage2/mod.rs:101-106 | With the label the source gives, wherever the log ends, recovery from the files returns the state after a prefix: the longer of snapshot and log |
| `SnapshotRecovery.SnapshotAheadExample` | crates/storage/src/lib.rs:36-46 | Three records and a label three below the contents at which recovery returns the state after no prefix |
| `SnapshotReplay.SnapshotEquivalence` | crates/storage/src/lib.rs:36-46 | Loading a snapshot and absorbing only newer records equals absorbing everything |
| `SnapshotReplay.ReplayTwice` | crates/storage/src/lib.rs:41-44 | Replaying a log over its own outcome changes nothing |
| `Snapshot.LoadFile` | crates/storage/src/snapshot.rs:26-56 | The cursor loop computes the label and map of a file, rejects a bad header, stops early at a short tail and panics inside a cut entry |
| `Snapshot.SnapshotRoundTrip` | crates/storage/src/snapshot.rs:79-90 | A map serialised in any iteration order loads back to the same map and label |
| `Snapshot.SnapshotBytes` | crates/storage/src/snapshot.rs:79-90 | The bytes of a small snapshot file |
| `Snapshot.RejectedExactly` | crates/storage/src/snapshot.rs:27-30 | A file is rejected exactly if it is shorter than a header or does not start with SNAP |
| `Snapshot.CutSnapshot` | crates/storage/src/snapshot.rs:36-53 | A file cut in an entry loads the entries before it as if they were all if not even a key length is left, and panics otherwise |
| `Snapshot.Snapshotter.Write` | crates/storage/src/snapshot.rs:68-105 | Writes exactly if the LSN gap is exceeded, a file that loads back to the map and label, and moves the boundary only then |
| `WalFormat.ComputeChecksum` | crates/storage/src/wal_format.rs:37-44 | The loop computes the checksum, below 2^64 |
| `WalFormat.ChecksumIsFnv1a` | crates/storage/src/wal_format.rs:37-44 | The checksum is 64-bit FNV-1a: the published values for no byte and for the byte 97 |
| `WalFormat.EncodeRecord` | crates/storage/src/wal_format.rs:48-63 | Appends length, LSN, body and checksum |
| `WalFormat.RecordLayout` | crates/storage/src/wal_format.rs:48-63 | A record by position: length, LSN, body, checksum of LSN and body |
| `WalFormat.DecodeEncode` | crates/storage/src/wal_format.rs:75-101 | Any record that fits decodes to itself, whatever follows it |
| `WalFormat.DecodeExactly` | crates/storage/src/wal_format.rs:75-101 | A record is decoded from bytes if and only if they start with its encoding |
| `WalFormat.CutRecordTorn` | crates/storage/src/wal_format.rs:76-86 | Every proper prefix of a record is torn |
| `WalFormat.OneByteDamageTorn` | crates/storage/src/wal_format.rs:88-94 | Changing any one byte of the body or the stored checksum makes the record torn, for bodies of any length |
| `WalFormat.ChecksumSeesOneByte` | crates/storage/src/wal_format.rs:37-44 | Changing any one byte changes the checksum |
| `WalFormat.MixInjective` | crates/storage/src/wal_format.rs:40-41 | A checksum step is injective in the state and in the byte |
| `WalFormat.PrimeInverse` | crates/storage/src/wal_format.rs:41-41 | Multiplication by the FNV prime modulo 2^64 is undone by its inverse |
| `WalFormat.ZeroHoleTorn` | crates/storage/src/wal_format.rs:75-94 | An all-zero region never decodes as a record |
| `WalFormat.PanicsExactly` | crates/storage/src/wal_format.rs:80-98 | Decoding panics exactly if the length is below 8 and the checksum matches |
| `WalFormat.PanicWitness` | crates/storage/src/wal_format.rs:96-98 | Twelve bytes on which decoding panics |
| `Bytes.LEDigit` | crates/wire/src/lib.rs:112-119 | Integers are little-endian: byte i has weight 256 to the i |
| `Wire.Opcodes` | crates/wire/src/lib.rs:6-22 | Byte 0 is GET, 1 is PUT, and every other opcode is unknown |
| `Wire.ResponseCodes` | crates/wire/src/lib.rs:87-108 | The code of each response in both directions; an empty body or another code is not recognised |
| `Wire.EncodeRaw` | crates/wire/src/lib.rs:25-47 | Appends one framed request and its length, or nothing for a PUT without a value |
| `Wire.BodyRoundTrip` | crates/wire/src/lib.rs:62-75 | Any encoded request is well formed and splits back into its opcode, key and value |
| `Wire.SplitKv` | crates/wire/src/lib.rs:72-75 | Header, key and value together are the body |
| `Framing.EncodeResp` | crates/server/src/stage1/mod.rs:99-114 | Appends the frame of the response's code and value |
| `Framing.ResponseFrames` | crates/server/src/stage1/mod.rs:99-114 | The frame of each response, byte by byte |
| `Framing.RespRoundTrip` | crates/wire/src/lib.rs:87-108 | A response's code and payload read back as the response |
| `Framing.FrameReader.TryExtract` | crates/smart_client/src/reader.rs:30-45 | Yields the first frame exactly if one is complete, and drops just its bytes |
| `Framing.FrameReader.ReadChunks` | crates/smart_client/src/reader.rs:22-45 | Any number of reads of any sizes yield the frames of all the bytes at once, and keep the rest |
| `Framing.FramesAppend` | crates/smart_client/src/reader.rs:26-45 | Parsing what has arrived and then the rest is parsing everything at once |
| `Framing.ChunkedRoundTrip` | crates/smart_client/src/reader.rs:22-45 | However the bytes of encoded responses are cut, exactly those responses are read and nothing is left |
| `Framing.ReadRequests` | crates/server/src/stage1/mod.rs:69-94 | The connection loop yields the framed bodies up to the first empty, oversized or incomplete one |
| `Framing.RequestsExactly` | crates/server/src/stage1/mod.rs:69-83 | Every body read has 1 byte to 8 MiB, the bodies in their frames are the stream up to some point, and there stands a cut, empty or oversized frame |
| `Framing.RequestsRoundTrip` | crates/server/src/stage1/mod.rs:69-94 | Framed bodies of acceptable size are read back exactly, whatever follows |
| `Loadgen.FrameReader.ReadFrames` | crates/server/benches/loadgen.rs:89-127 | Window and bytes to come are always the unread stream: the first `count` frames are gone from it and their misses counted, or the server closed before that many were complete |
| `Loadgen.FrameReader.ConsumeFrame` | crates/server/benches/loadgen.rs:93-105 | Steps over a frame exactly if the window starts with a complete one |
| `Loadgen.FrameReader.Refill` | crates/server/benches/loadgen.rs:107-124 | Compacting, doubling and reading keep window and bytes to come together unchanged |
| `Loadgen.FrameReader.Compact` | crates/server/benches/loadgen.rs:108-112 | Shifting in place keeps the window |
| `Loadgen.FrameReader.Double` | crates/server/benches/loadgen.rs:114-117 | Growing keeps the window and doubles the buffer |
| `Loadgen.TakeIsFrames` | crates/server/benches/loadgen.rs:89-127 | What it consumes and counts is what the plain parser finds |
| `Loadgen.TakeResponses` | crates/server/benches/loadgen.rs:89-127 | On a stream of encoded responses it takes exactly those asked for and counts their misses |

## Left out

- TCP accept, connection and supervisor tasks, client reconnects: plumbing over libraries that are not shown. Per-connection reply channels are unbounded and never close in the model.
- Panics and closed channels end a run; nothing is stated after them. Failed fsyncs and writes are posted and end it only once their completion is reaped; until then a failed fsync counts as armed in `LossBounded` and `FsyncObligations`.
- The engine's drain loop inside `rotate`, the spin budget and parking on the ring: in the model the loop is the ordinary submit, kernel and reap steps, taken while no message is received, followed by `FinishRotate`. That the loop ends is not stated.
- Liveness: nothing says that the kernel completes an operation or that a message arrives. `ObligationArms` says what happens when the loop comes round.
- A write changes the file at the moment its completion is posted, all its bytes at once, and an fsync covers what has landed when it completes, which under the drain rule is everything submitted before it.
- Where no help from the checksum is wanted, a crash loses or keeps each batch that is not fsynced as a whole, apart from cutting the file off. Sectors of one batch lost separately, or read back as anything, are in `LegibleRecovers`, `SurvivesLegibly`, `RetiredRecovers` and `CompactionRecovers`, which ask that the first record broken fail to decode; how likely a 64-bit checksum is to miss one is not modelled.
- Fsync of the directory: `Segment::open` does not sync it, and a crash keeps the names of all segments in the model.
- Start-up assumes that the bytes of all old segments are fsynced (`Settled`) and that the segment opened has the highest name (`CleanStart`). After a clean restart in Async or NoFsync mode the first need not hold: a crash in the next run could then lose bytes of the one before.
- SecondRun: asks that the segment opened at the restart be a new one. If nothing of the active segment was recovered and its name is the next LSN, start-up appends behind the tear in the same file, and what a later recovery makes of it is up to the checksum.
- CrashRecovers: asks that no write be short or retried, no rotation go back to a lower name and no segment be unlinked. The first is needed (`RetriedWriteLosesAnswered`); runs that unlink are covered by `CompactionAnswered`; a rotation back would list newer records before older ones, and stage 2 sends none (`CompactingForward`).
- QuietRecovery: asks that no segment be unlinked and no rotation go back; runs with compaction are covered by `CompactionQuiet`.
- PrefixRecovers: asks that no batch be torn at the crash: in the file with a gap before more data, or fsynced in part. Such a crash is covered by `LegibleRecovers`, since there only length field and checksum can tell the broken record from a whole one.
- CrashRecovers: asks that the last LSN be below 2^64; wrap-around of LSNs is not modelled.
- The snapshot trigger in stage 2 is commented out in the source; snapshots are modelled as files (`SnapshotRecovers`), Rotate and Retire as messages that may come at any time, and `Compaction` states what holds if they come as the trigger sends them.
- `Snapshotter::try_begin` and `poll` are not implemented in the source; rename and directory sync of the snapshot file are not modelled.
- Directory listing: segment names are numbers; parsing and zero-padding of file names, and two names with the same number, are not modelled.
- Request bodies are assumed well formed where the source indexes them without a check (a GET or PUT of at least 5 bytes whose key fits); it panics otherwise.
- Batches and requests are values, moved between places as Rust moves them. `Batch.buf`, `Batch.no` and `Request.id`, and the observations `hist`, `reach`, `spans`, `locs` and `replies`, are bookkeeping of the model.
- `Db` debug formatting, `remove` and `remove_entry`; the load generator's statistics and key generation; `push_req`, which writes what `EncodeRaw` writes; CLI, logging and allocator counters: no deep property.
