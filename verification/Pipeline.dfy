/**
 The whole write path as one state machine: stage 2 (crates/server/src/stage2/mod.rs), the channel, the
 WAL engine (crates/server/src/stage3/mod.rs), the io_uring kernel under it, and the files. A run is
 any interleaving of the steps below. Panics end a run and have no step.
 */
module Pipeline {
  import opened Bytes
  import opened Types
  import opened Wire
  import opened Stage2
  import opened Acker
  import opened IoWork
  import opened FsyncPlanner
  import opened IoLine
  import opened WalCore
  import opened Names

  const N_BUFFERS: nat := 32
  const MAX_BATCH: nat := 1024

  // ---- Kernel ----

  /** A submitted operation: the slab entry it was built from and the descriptor it was submitted with. */
  datatype Op = Op(work: Work, fd: nat)

  datatype Cqe = Cqe(work: Work, res: int)

  /**
   `ops` holds submitted, uncompleted operations in submission order; `cq` posted, unreaped completions
   in posting order. Files are numbered; `dir` maps segment names to them, so an unlink drops a name only.
   */
  datatype Kernel = Kernel(ops: seq<Op>, cq: seq<Cqe>, files: seq<File>, dir: map<nat, nat>)

  /** IOSQE_IO_DRAIN, io_uring_enter(2): a drained op waits for all earlier ones, later ones wait for it. */
  ghost predicate MayStart(ops: seq<Op>, i: nat)
    requires i < |ops|
  {
    && (forall j :: 0 <= j < i ==> !ops[j].work.Fsync?)
    && (ops[i].work.Fsync? ==> i == 0)
  }

  function SlotOf(w: Work): Slot { Slot(w, if w.Write? then w.done else 0) }

  /** A completion in the line: a write stands as far as it got, and a failed fsync is marked. */
  function CqSlot(c: Cqe): Slot {
    Slot(c.work, if c.work.Write? then Reached(c.work, c.res) else if c.work.Fsync? && c.res < 0 then 1 else 0)
  }

  /** The line of outstanding I/O, see `IoLine`. */
  function LineOf(cq: seq<Cqe>, ops: seq<Op>, pending: seq<Work>): (line: seq<Slot>)
    ensures |line| == |cq| + |ops| + |pending|
    ensures forall i :: 0 <= i < |cq| ==> line[i] == CqSlot(cq[i])
    ensures forall i :: |cq| <= i < |cq| + |ops| ==> line[i] == SlotOf(ops[i - |cq|].work)
    ensures forall i :: |cq| + |ops| <= i < |line| ==> line[i] == SlotOf(pending[i - |cq| - |ops|])
  {
    seq(|cq|, i requires 0 <= i < |cq| => CqSlot(cq[i])) +
    seq(|ops|, i requires 0 <= i < |ops| => SlotOf(ops[i].work)) +
    seq(|pending|, i requires 0 <= i < |pending| => SlotOf(pending[i]))
  }

  // ---- The system ----

  datatype Req = Req(conn: nat, data: bytes)

  /** A batch sent to the WAL: requests `first .. first + n`, PUTs numbered `lo + 1 .. hi`. */
  datatype Span = Span(first: nat, n: nat, lo: nat, hi: nat)

  /** Where an ingested batch was placed. */
  datatype Loc = Loc(ino: nat, off: nat, len: nat)

  /**
   `hist` and `conns` record every request taken by stage 2 in order, `reach` the level each one's batch
   has reached, `spans` the batches sent to the WAL, `locs` the places of those ingested, `replies` every
   response sent. All five are observations; no step's choice depends on them.
   */
  datatype State = State(
    start: nat, db0: Kv,
    hist: seq<bytes>, conns: seq<nat>, reach: seq<AckPoint>, spans: seq<Span>, locs: seq<Loc>, replies: seq<Reply>,
    db: Kv, lsn: nat, pool: seq<Batch>, held: Option<Batch>,
    chan: seq<WalMsg>,
    eng: Engine, ker: Kernel)

  function Line(s: State): seq<Slot> { LineOf(s.ker.cq, s.ker.ops, s.eng.pending) }

  datatype Step =
    | Take(reqs: seq<Req>)
    | Post(msg: WalMsg)
    | Receive
    | ArmFsync
    | Submit
    | KernelWrite(i: nat, res: int)
    | KernelFsync
    | FailFsync(res: int)
    | KernelRemove(i: nat, gone: bool)
    | ReapCqe
    | FinishRotate

  // ---- Stage 2: fill a batch, apply it, answer what is due, hand it on ----

  function Datas(reqs: seq<Req>): (b: seq<bytes>)
    ensures |b| == |reqs| && forall i :: 0 <= i < |b| ==> b[i] == reqs[i].data
  {
    seq(|reqs|, i requires 0 <= i < |reqs| => reqs[i].data)
  }

  function Conns(reqs: seq<Req>): (b: seq<nat>)
    ensures |b| == |reqs| && forall i :: 0 <= i < |b| ==> b[i] == reqs[i].conn
  {
    seq(|reqs|, i requires 0 <= i < |reqs| => reqs[i].conn)
  }

  /** `apply_batch`: each request with the response it gets from the map as its predecessors left it. */
  function ApplyRequests(db: Kv, first: nat, reqs: seq<Req>): (items: seq<Request>)
    requires AllWellFormed(Datas(reqs))
    ensures |items| == |reqs|
    ensures forall i :: 0 <= i < |reqs| ==>
      items[i] == Request(first + i, reqs[i].conn, reqs[i].data, Some(RespTo(Exec(db, Datas(reqs)[..i]), reqs[i].data)))
  {
    seq(|reqs|, i requires 0 <= i < |reqs| =>
      Request(first + i, reqs[i].conn, reqs[i].data, Some(RespTo(Exec(db, Datas(reqs)[..i]), reqs[i].data))))
  }

  ghost predicate CanTake(s: State, reqs: seq<Req>) {
    && (s.held.Some? || s.pool != [])
    && 1 <= |reqs| <= MAX_BATCH
    && AllWellFormed(Datas(reqs))
    && forall i :: 0 <= i < |reqs| ==> |reqs[i].data| <= MAX_BODY
  }

  /** The batch in hand once its requests are applied and everything due at `Applied` is answered. */
  function TakenBatch(s: State, reqs: seq<Req>): Batch
    requires CanTake(s, reqs)
  {
    var b := if s.held.Some? then s.held.value else s.pool[0];
    var items := ApplyRequests(s.db, |s.hist|, reqs);
    Batch(b.buf, |s.spans|, Remaining(s.eng.mode, items, AckPoint.Applied), b.out,
          s.lsn, s.lsn + |RecsOf(s.lsn, Datas(reqs))|)
  }

  function TakeBatch(s: State, reqs: seq<Req>): State
    requires CanTake(s, reqs)
  {
    var b := TakenBatch(s, reqs);
    var s' := s.(
      hist := s.hist + Datas(reqs),
      conns := s.conns + Conns(reqs),
      reach := s.reach + seq(|reqs|, _ => AckPoint.Applied),
      replies := s.replies + Sent(s.eng.mode, ApplyRequests(s.db, |s.hist|, reqs), AckPoint.Applied),
      db := Exec(s.db, Datas(reqs)),
      lsn := b.hi,
      pool := if s.held.Some? then s.pool else s.pool[1..]);
    if b.HasWalWork() then
      s'.(held := None, chan := s.chan + [WriteMsg(b)], spans := s.spans + [Span(|s.hist|, |reqs|, b.lo, b.hi)])
    else
      s'.(held := Some(b.Recycle()))
  }

  // ---- Stage 3 ----

  function ReceiveWrite(s: State): State
    requires s.chan != [] && s.chan[0].WriteMsg? && ItemsWellFormed(s.chan[0].batch.items)
    requires s.eng.seg.ino < |s.ker.files|
  {
    var b := Encoded(s.chan[0].batch);
    var f := s.ker.files[s.eng.seg.ino];
    var recs := RecsOf(b.lo, Bodies(b.items));
    s.(chan := s.chan[1..],
       eng := Ingest(s.eng, s.chan[0].batch),
       locs := s.locs + [Loc(s.eng.seg.ino, s.eng.seg.offset, |b.out|)],
       ker := s.ker.(files := s.ker.files[s.eng.seg.ino := Grown(f, recs, b.out)]))
  }

  /** The names `retire` queues for removal, in the order `list_segments` gives them. */
  function Below(names: set<nat>, boundary: nat): seq<nat> {
    Sorted(set n | n in names && n < boundary)
  }

  ghost predicate CanReceive(s: State) {
    && s.eng.rotating.None?
    && s.chan != []
    && match s.chan[0]
       case WriteMsg(b) => ItemsWellFormed(b.items) && s.eng.seg.ino < |s.ker.files|
       case RotateMsg(_) => true
       case RetireMsg(boundary) => boundary <= s.eng.seg.start  // the source panics otherwise
  }

  function ReceiveMsg(s: State): State
    requires CanReceive(s)
  {
    match s.chan[0]
    case WriteMsg(_) => ReceiveWrite(s)
    case RotateMsg(b) => s.(chan := s.chan[1..], eng := s.eng.(rotating := Some(b)))
    case RetireMsg(b) =>
      s.(chan := s.chan[1..], eng := s.eng.(pending := s.eng.pending + Removals(Below(s.ker.dir.Keys, b))))
  }

  ghost predicate CanSubmit(s: State) {
    s.eng.pending != [] && |s.ker.ops| + |s.ker.cq| < s.eng.depth
  }

  /** `handle_pending` moves the front of `pending` into the ring, with the descriptor of the current segment. */
  function SubmitFront(s: State): State
    requires s.eng.pending != []
  {
    s.(eng := s.eng.(pending := s.eng.pending[1..]),
       ker := s.ker.(ops := s.ker.ops + [Op(s.eng.pending[0], s.eng.seg.ino)]))
  }

  // ---- Kernel steps ----

  function Without<T>(xs: seq<T>, i: nat): seq<T>
    requires i < |xs|
  {
    xs[..i] + xs[i + 1..]
  }

  function Wrote(res: int): nat { if res > 0 then res else 0 }

  ghost predicate CanWrite(k: Kernel, i: nat, res: int) {
    && i < |k.ops| && MayStart(k.ops, i) && k.ops[i].fd < |k.files|
    && k.ops[i].work.Write? && k.ops[i].work.done <= |k.ops[i].work.batch.out| && WriteResult(k.ops[i].work, res)
  }

  function DoWrite(k: Kernel, i: nat, res: int): Kernel
    requires CanWrite(k, i, res)
  {
    var op := k.ops[i];
    k.(ops := Without(k.ops, i), cq := k.cq + [Cqe(op.work, res)],
       files := k.files[op.fd := Landing(k.files[op.fd], op.work, Wrote(res))])
  }

  ghost predicate CanFsync(k: Kernel) {
    k.ops != [] && k.ops[0].work.Fsync? && k.ops[0].fd < |k.files|
  }

  function DoFsync(k: Kernel): Kernel
    requires CanFsync(k)
  {
    var op := k.ops[0];
    k.(ops := k.ops[1..], cq := k.cq + [Cqe(op.work, 0)], files := k.files[op.fd := SyncedNow(k.files[op.fd])])
  }

  /** The fsync reports an error: nothing becomes durable. */
  function FsyncFailed(k: Kernel, res: int): Kernel
    requires CanFsync(k)
  {
    k.(ops := k.ops[1..], cq := k.cq + [Cqe(k.ops[0].work, res)])
  }

  ghost predicate CanRemove(k: Kernel, i: nat) {
    i < |k.ops| && MayStart(k.ops, i) && k.ops[i].work.Remove?
  }

  function DoRemove(k: Kernel, i: nat, gone: bool): Kernel
    requires CanRemove(k, i)
  {
    var op := k.ops[i];
    k.(ops := Without(k.ops, i), cq := k.cq + [Cqe(op.work, if gone then 0 else -2)],
       dir := if gone then k.dir - {op.work.name} else k.dir)
  }

  // ---- Reaping and rotation ----

  /** The level of every request of a batch rises. */
  function Raise(reach: seq<AckPoint>, sp: Span, level: AckPoint): (r: seq<AckPoint>)
    ensures |r| == |reach|
    ensures forall id :: 0 <= id < |reach| ==> r[id] == if sp.first <= id < sp.first + sp.n then level else reach[id]
  {
    seq(|reach|, id requires 0 <= id < |reach| => if sp.first <= id < sp.first + sp.n then level else reach[id])
  }

  ghost predicate Spanned(bs: seq<Batch>, spans: seq<Span>) {
    forall i :: 0 <= i < |bs| ==> bs[i].no < |spans|
  }

  function RaiseAll(reach: seq<AckPoint>, spans: seq<Span>, bs: seq<Batch>, level: AckPoint): (r: seq<AckPoint>)
    requires Spanned(bs, spans)
    ensures |r| == |reach|
  {
    if bs == [] then reach
    else Raise(RaiseAll(reach, spans, bs[..|bs| - 1], level), spans[bs[|bs| - 1].no], level)
  }

  ghost predicate CanReap(s: State) {
    && s.ker.cq != []
    && Spanned(s.eng.awaiting, s.spans)
    && BatchesWellFormed(s.eng.awaiting)
    && WorkWellFormed(s.ker.cq[0].work)
    && Complete(s.ker.cq[0].work, s.ker.cq[0].res) != Fatal
    && (s.ker.cq[0].work.Write? ==> s.ker.cq[0].work.batch.no < |s.spans|)
  }

  function ReachAfter(s: State, v: Verdict): seq<AckPoint>
    requires Spanned(s.eng.awaiting, s.spans)
    requires v.Finished? && v.batch.Some? ==> v.batch.value.no < |s.spans|
  {
    match v
    case Finished(Some(b)) => Raise(s.reach, s.spans[b.no], AckPoint.Written)
    case Flushed => RaiseAll(s.reach, s.spans, s.eng.awaiting, Durable)
    case _ => s.reach
  }

  function ReapHead(s: State): State
    requires CanReap(s)
  {
    var c := s.ker.cq[0];
    var y := Reap(s.eng, c.work, c.res);
    s.(eng := y.eng, ker := s.ker.(cq := s.ker.cq[1..]),
       reach := ReachAfter(s, Complete(c.work, c.res)),
       replies := s.replies + y.sent, pool := s.pool + y.freed)
  }

  ghost predicate CanFinishRotate(s: State) {
    && s.eng.rotating.Some? && s.eng.pending == [] && s.ker.ops == [] && s.ker.cq == []
    && s.eng.seg.ino < |s.ker.files|
    && (forall n :: n in s.ker.dir ==> s.ker.dir[n] < |s.ker.files|)
    && Spanned(s.eng.awaiting, s.spans) && BatchesWellFormed(s.eng.awaiting)
  }

  /** Seal the old segment with an fsync, serve its waiters, and open the next one at its end. */
  function Rotate(s: State): State
    requires CanFinishRotate(s)
  {
    var b := s.eng.rotating.value;
    var sealed := s.ker.files[s.eng.seg.ino := SyncedNow(s.ker.files[s.eng.seg.ino])];
    var (files, dir) :=
      if b in s.ker.dir then (sealed, s.ker.dir)
      else (sealed + [File([], [], [], [], [])], s.ker.dir[b := |sealed|]);
    var y := Reopen(s.eng, Segment(b, dir[b], |files[dir[b]].data|));
    s.(eng := y.eng, ker := s.ker.(files := files, dir := dir),
       reach := RaiseAll(s.reach, s.spans, s.eng.awaiting, Durable),
       replies := s.replies + y.sent, pool := s.pool + y.freed)
  }

  // ---- Runs ----

  ghost predicate Enabled(s: State, step: Step) {
    match step
    case Take(reqs) => CanTake(s, reqs)
    case Post(msg) => !msg.WriteMsg?
    case Receive => CanReceive(s)
    case ArmFsync => s.eng.rotating.None?
    case Submit => CanSubmit(s)
    case KernelWrite(i, res) => CanWrite(s.ker, i, res)
    case KernelFsync => CanFsync(s.ker)
    case FailFsync(res) => CanFsync(s.ker) && res < 0
    case KernelRemove(i, _) => CanRemove(s.ker, i)
    case ReapCqe => CanReap(s)
    case FinishRotate => CanFinishRotate(s)
  }

  function Next(s: State, step: Step): State
    requires Enabled(s, step)
  {
    match step
    case Take(reqs) => TakeBatch(s, reqs)
    case Post(msg) => s.(chan := s.chan + [msg])
    case Receive => ReceiveMsg(s)
    case ArmFsync => s.(eng := Arm(s.eng))
    case Submit => SubmitFront(s)
    case KernelWrite(i, res) => s.(ker := DoWrite(s.ker, i, res))
    case KernelFsync => s.(ker := DoFsync(s.ker))
    case FailFsync(res) => s.(ker := FsyncFailed(s.ker, res))
    case KernelRemove(i, gone) => s.(ker := DoRemove(s.ker, i, gone))
    case ReapCqe => ReapHead(s)
    case FinishRotate => Rotate(s)
  }

  function FreeBuffer(i: nat): Batch { Batch(i, 0, [], [], 0, 0) }

  ghost predicate Settled(f: File) {
    f.recs == [] && f.base == f.want && f.data == f.want && f.synced == f.want
  }

  /** Start-up: `recover` has produced `db0` and the watermark `start`, and segment `start` is open at its end. */
  ghost predicate Init(s: State) {
    && s.hist == [] && s.conns == [] && s.reach == [] && s.spans == [] && s.locs == [] && s.replies == []
    && s.db == s.db0 && s.lsn == s.start
    && s.pool == seq(N_BUFFERS, i requires 0 <= i => FreeBuffer(i)) && s.held.None? && s.chan == []
    && s.ker.ops == [] && s.ker.cq == []
    && (forall i :: 0 <= i < |s.ker.files| ==> Settled(s.ker.files[i]))
    && (forall n :: n in s.ker.dir ==> s.ker.dir[n] < |s.ker.files|)
    && (forall m, n :: m in s.ker.dir && n in s.ker.dir && m != n ==> s.ker.dir[m] != s.ker.dir[n])
    && s.start in s.ker.dir
    && s.eng.depth > 0
    && s.eng == Engine(s.eng.mode, s.eng.depth, [], s.start,
                       Segment(s.start, s.ker.dir[s.start], |s.ker.files[s.ker.dir[s.start]].data|),
                       Plan(CadenceOf(s.eng.mode), 0, false), [], None)
  }

  /** A run: a start-up state followed by any enabled steps. */
  ghost predicate IsRun(states: seq<State>, steps: seq<Step>) {
    && |states| == |steps| + 1
    && Init(states[0])
    && forall i :: 0 <= i < |steps| ==> Enabled(states[i], steps[i]) && states[i + 1] == Next(states[i], steps[i])
  }
}
