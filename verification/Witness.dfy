/**
 Runs the hypotheses of other theorems are there for, each in the order the engine's loop takes its steps.
 In one, a write interrupted twice is still missing when an fsync answers a later batch, and a crash then
 loses that answered PUT. In another, the engine parks while a batch still waits for durability. In a third,
 a request with an unknown opcode is dropped.
 */
module Witness {
  import opened Bytes
  import opened Types
  import opened Wire
  import opened Recovery
  import opened Stage2
  import opened Acker
  import opened IoWork
  import opened IoLine
  import opened FsyncPlanner
  import opened WalCore
  import opened Pipeline
  import opened Routing
  import opened Batches
  import opened BatchSteps
  import opened Storage
  import opened Durability
  import opened Replies
  import opened Outstanding
  import opened Content
  import opened CalmSteps
  import opened SteadySteps
  import opened EngineLoop
  import opened CrashReplay
  import opened LogOrder
  import opened CrashFiles
  import opened CrashRecovery
  import opened Runs
  import opened Theorems
  import opened Readiness

  // ---- A fresh server ----

  const BodyA: bytes := EncodeBody(Put, [97], [1])
  const BodyB: bytes := EncodeBody(Put, [98], [2])

  function Fresh(): State {
    State(1, map[], [], [], [], [], [], [], map[], 1,
          seq(N_BUFFERS, i requires 0 <= i => FreeBuffer(i)), None, [],
          Engine(Sync, 64, [], 1, Segment(1, 0, 0), Plan(Consistently, 0, false), [], None),
          Kernel([], [], [Blank()], map[1 := 0]))
  }

  lemma FreshInit()
    ensures Init(Fresh()) && CleanStart(Fresh(), 0, Progress(map[], 0))
  {
    var s := Fresh();
    assert s.ker.dir.Keys == {1};
    assert Names.IsMax(1, s.ker.dir.Keys);
    assert forall i :: 0 <= i < |s.ker.files| ==> s.ker.files[i] == Blank();
    var fs := Listed(s.ker.files, s.ker.dir);
    forall i | 0 <= i < |fs| ensures fs[i].base == [] { ListedAt(s.ker.files, s.ker.dir, i); }
    EmptyBases(fs, 0, Progress(map[], 0));
  }

  lemma BodiesArePuts()
    ensures IsPut(BodyA) && IsPut(BodyB) && |BodyA| == 7 && |BodyB| == 7
  {
    BodyRoundTrip(Put, [97], [1]);
    BodyRoundTrip(Put, [98], [2]);
  }

  // ---- Tracking a run ----

  /** The parts of a state the runs below go through; the one segment is file 0, named 1. */
  datatype View = View(chan: seq<WalMsg>, eng: Engine, ops: seq<Op>, cq: seq<Cqe>, data: bytes, synced: bytes)

  ghost predicate Shows(s: State, v: View) {
    && s.chan == v.chan && s.eng == v.eng && s.ker.ops == v.ops && s.ker.cq == v.cq
    && s.ker.dir == map[1 := 0] && |s.ker.files| == 1
    && s.ker.files[0].data == v.data && s.ker.files[0].synced == v.synced
  }

  /** The requests taken, the batches sent, the level each request has reached, the watermark, and free buffers. */
  datatype Books = Books(hist: seq<bytes>, spans: seq<Span>, reach: seq<AckPoint>, lsn: nat, free: nat)

  ghost predicate Records(s: State, bk: Books) {
    && s.hist == bk.hist && s.spans == bk.spans && s.reach == bk.reach && s.lsn == bk.lsn
    && s.held.None? && bk.free <= |s.pool|
  }

  /** A run with the engine's place in its loop after each step. */
  datatype Trace = Trace(states: seq<State>, steps: seq<Step>, phases: seq<Phase>)

  /** A run in loop order that ends in `s`, in which each write was carried out in full or interrupted. */
  ghost predicate Ends(r: Trace, s: State, ph: Phase) {
    && OrderlyRun(r.states, r.steps) && SteadyRun(r.states, r.steps) && InLoop(r.states, r.steps, r.phases)
    && r.states[0] == Fresh() && r.states[|r.steps|] == s && r.phases[|r.steps|] == ph
  }

  ghost predicate At(r: Trace, s: State, ph: Phase, v: View, bk: Books) {
    Ends(r, s, ph) && Inv(s) && Shows(s, v) && Records(s, bk)
  }

  lemma Begin() returns (r: Trace)
    ensures At(r, Fresh(), Polling, View([], Eng([], 1, 0, 0, false, []), [], [], [], []), Books([], [], [], 1, 32))
  {
    hide Init, Inv;
    FreshInit();
    r := Trace([Fresh()], [], [Polling]);
    InvInit(Fresh());
  }

  lemma Extend(r: Trace, s: State, ph: Phase, step: Step, ph': Phase) returns (r': Trace)
    requires Ends(r, s, ph) && Enabled(s, step) && Steady(s, step) && Orderly(s, step) && LoopStep(s, ph, step, ph')
    ensures Ends(r', Next(s, step), ph') && Inv(Next(s, step))
  {
    hide Init, Enabled, Next, Inv, LoopStep, Steady, Orderly;
    r' := Trace(r.states + [Next(s, step)], r.steps + [step], r.phases + [ph']);
    forall i | 0 <= i < |r'.steps|
      ensures Enabled(r'.states[i], r'.steps[i]) && r'.states[i + 1] == Next(r'.states[i], r'.steps[i])
      ensures Steady(r'.states[i], r'.steps[i]) && Orderly(r'.states[i], r'.steps[i])
      ensures LoopStep(r'.states[i], r'.phases[i], r'.steps[i], r'.phases[i + 1])
    {
      if i < |r.steps| {
        assert r'.states[i] == r.states[i] && r'.states[i + 1] == r.states[i + 1];
        assert r'.phases[i] == r.phases[i] && r'.phases[i + 1] == r.phases[i + 1];
        assert Steady(r.states[i], r.steps[i]) && Orderly(r.states[i], r.steps[i]);
      }
    }
    InvAlways(r'.states, r'.steps, |r'.steps|);
  }

  function Eng(pending: seq<Work>, last: nat, offset: nat, dirty: nat, flushing: bool, awaiting: seq<Batch>): Engine {
    Engine(Sync, 64, pending, last, Segment(1, 0, offset), Plan(Consistently, dirty, flushing), awaiting, None)
  }

  /** `AtTop` of a view. */
  predicate Top(v: View, ph: Phase) {
    || ph.Polling?
    || (ph.Submitting? && v.eng.pending == [] && v.cq == [])
    || (ph.Reaping? && v.cq == [])
  }

  /** The engine may reap: it has submitted everything, or is reaping already. */
  predicate MayReap(v: View, ph: Phase) { (ph.Submitting? && v.eng.pending == []) || ph.Reaping? }

  // ---- Stage 2 ----

  lemma OnePut(lsn: nat, body: bytes)
    requires IsPut(body)
    ensures AllWellFormed([body]) && |RecsOf(lsn, [body])| == 1
  {
    hide WellFormed;
    assert [body][..0] == [];
    assert RecsOf(lsn, []) == [];
  }

  /** One PUT is taken as a batch of its own. */
  lemma GoTake(r: Trace, s: State, ph: Phase, v: View, bk: Books, body: bytes) returns (r': Trace, s': State, b: Batch)
    requires At(r, s, ph, v, bk) && IsPut(body) && |body| <= MAX_BODY && bk.free >= 1
    ensures At(r', s', ph, v.(chan := v.chan + [WriteMsg(b)]),
               Books(bk.hist + [body], bk.spans + [Span(|bk.hist|, 1, bk.lsn, bk.lsn + 1)],
                     bk.reach + [AckPoint.Applied], bk.lsn + 1, bk.free - 1))
    ensures b.no == |bk.spans|
  {
    hide Inv, WellFormed, ApplyRequests, Sent, Remaining, Exec, Ends;
    var reqs := [Req(0, body)];
    assert Datas(reqs) == [body];
    assert AllWellFormed(Datas(reqs));
    OnePut(s.lsn, body);
    assert seq(1, _ => AckPoint.Applied) == [AckPoint.Applied];
    b := TakenBatch(s, reqs);
    s' := Next(s, Take(reqs));
    r' := Extend(r, s, ph, Take(reqs), ph);
  }

  // ---- The engine ----

  /** The batch in the channel is ingested; it has bytes to write. */
  lemma GoReceive(r: Trace, s: State, ph: Phase, v: View, bk: Books, b: Batch) returns (r': Trace, s': State)
    requires At(r, s, ph, v, bk) && v.chan == [WriteMsg(b)] && v.eng.rotating.None? && v.eng.seg.ino == 0 && Top(v, ph)
    ensures ItemsWellFormed(b.items) && |Encoded(b).out| >= 20
    ensures At(r', s', Evaluating, v.(chan := [], eng := Ingest(v.eng, b)), bk)
  {
    hide Inv, RecsOf, WellFormed, EncodeLog, Ends;
    ReceiveFacts(s, b);
    assert v.chan[1..] == [];
    s' := Next(s, Receive);
    r' := Extend(r, s, ph, Receive, Evaluating);
  }

  lemma ReceiveFacts(s: State, b: Batch)
    requires Inv(s) && s.chan == [WriteMsg(b)]
    ensures ItemsWellFormed(b.items) && |Encoded(b).out| >= 20
  {
    hide Inv, RecsOf, WellFormed, EncodeLog, RouteInv, BatchInv, IoInv, DurableInv, ReplyInv, OutInv,
         Buffers.BufferInv, ContentInv;
    InvParts(s);
    AssertionsHold(s);
    LogLong(RecsOf(b.lo, Bodies(b.items)));
  }

  lemma GoArm(r: Trace, s: State, ph: Phase, v: View, bk: Books) returns (r': Trace, s': State)
    requires At(r, s, ph, v, bk) && v.eng.rotating.None?
    requires ph.Evaluating? || (Top(v, ph) && v.chan == [] && (v.eng.pending != [] || v.ops != [] || v.cq != []))
    ensures At(r', s', Submitting, v.(eng := Arm(v.eng)), bk)
  {
    hide Inv, Ends;
    s' := Next(s, ArmFsync);
    r' := Extend(r, s, ph, ArmFsync, Submitting);
  }

  lemma GoSubmit(r: Trace, s: State, v: View, bk: Books, w: Work, rest: seq<Work>) returns (r': Trace, s': State)
    requires At(r, s, Submitting, v, bk) && v.eng.pending == [w] + rest && v.eng.seg.ino == 0
    requires |v.ops| + |v.cq| < v.eng.depth
    ensures At(r', s', Submitting, v.(eng := v.eng.(pending := rest), ops := v.ops + [Op(w, 0)]), bk)
  {
    hide Inv, Ends;
    s' := Next(s, Submit);
    r' := Extend(r, s, Submitting, Submit, Submitting);
  }

  // ---- The kernel ----

  predicate AllOrNone(w: Work, res: int) {
    w.Write? && w.done == 0 && WriteResult(w, res) && (res <= 0 || res == |w.batch.out|)
  }

  function Written(v: View, w: Work, rest: seq<Op>, res: int): View
    requires AllOrNone(w, res)
  {
    v.(ops := rest, cq := v.cq + [Cqe(w, res)], data := WriteAt(v.data, w.offset, w.batch.out[..Wrote(res)]))
  }

  /** The write at the front of the ring completes with `res`: everything, or nothing. */
  lemma GoWrite(r: Trace, s: State, ph: Phase, v: View, bk: Books, w: Work, rest: seq<Op>, res: int)
      returns (r': Trace, s': State)
    requires Top(v, ph) && v.ops == [Op(w, 0)] + rest && AllOrNone(w, res) && At(r, s, ph, v, bk)
    ensures At(r', s', Polling, Written(v, w, rest, res), bk)
  {
    hide Inv, Ends, WriteAt;
    assert Without(v.ops, 0) == rest;
    assert w.batch.out[0..Wrote(res)] == w.batch.out[..Wrote(res)];
    s' := Next(s, KernelWrite(0, res));
    r' := Extend(r, s, ph, KernelWrite(0, res), Polling);
  }

  lemma GoFsync(r: Trace, s: State, ph: Phase, v: View, bk: Books, w: Work, rest: seq<Op>)
      returns (r': Trace, s': State)
    requires At(r, s, ph, v, bk) && Top(v, ph) && v.ops == [Op(w, 0)] + rest && w.Fsync?
    ensures At(r', s', Polling, v.(ops := rest, cq := v.cq + [Cqe(w, 0)], synced := v.data), bk)
  {
    hide Inv, Ends;
    s' := Next(s, KernelFsync);
    r' := Extend(r, s, ph, KernelFsync, Polling);
  }

  // ---- Reaping ----

  /** Reaping an interrupted write puts it back in front. */
  lemma GoReapInterrupted(r: Trace, s: State, ph: Phase, v: View, bk: Books, w: Work, rest: seq<Cqe>)
      returns (r': Trace, s': State)
    requires At(r, s, ph, v, bk) && MayReap(v, ph) && v.cq == [Cqe(w, -EINTR)] + rest && w.Write?
    ensures At(r', s', Reaping, v.(eng := Retried(v.eng, w), cq := rest), bk)
  {
    hide Inv, RaiseAll, Ends;
    CanAlwaysReap(s);
    s' := Next(s, ReapCqe);
    r' := Extend(r, s, ph, ReapCqe, Reaping);
  }

  /** Batch `k` starts with a PUT. */
  predicate PutBatch(bk: Books, k: nat) {
    k < |bk.spans| && bk.spans[k].first < |bk.hist| && IsPut(bk.hist[bk.spans[k].first])
  }

  function LevelRaised(bk: Books, k: nat, level: AckPoint): Books
    requires k < |bk.spans|
  {
    bk.(reach := Raise(bk.reach, bk.spans[k], level))
  }

  /** Sync mode: a fully written batch of one PUT waits for an fsync. */
  lemma GoReapWritten(r: Trace, s: State, ph: Phase, v: View, bk: Books, w: Work, rest: seq<Cqe>)
      returns (r': Trace, s': State, b: Batch)
    requires MayReap(v, ph) && v.eng.mode == Sync && w.Write? && w.done == 0 && v.cq == [Cqe(w, |w.batch.out|)] + rest
    requires PutBatch(bk, w.batch.no) && At(r, s, ph, v, bk)
    ensures b.no == w.batch.no
    ensures At(r', s', Reaping, v.(eng := v.eng.(awaiting := v.eng.awaiting + [b]), cq := rest),
               LevelRaised(bk, w.batch.no, AckPoint.Written))
  {
    hide Inv, BatchInv, RaiseAll, Raise, Remaining, Sent, IsSettled, WellFormed, Ends;
    CanAlwaysReap(s);
    b := w.batch.(items := Remaining(v.eng.mode, w.batch.items, AckPoint.Written));
    assert BatchInv(s) by { InvParts(s); }
    StillOwed(s, w);
    s' := Next(s, ReapCqe);
    r' := Extend(r, s, ph, ReapCqe, Reaping);
  }

  lemma StillOwed(s: State, w: Work)
    requires w.Write? && WorkWellFormed(w) && s.ker.cq != [] && s.ker.cq[0].work == w
    requires BatchInv(s) && s.eng.mode == Sync
    requires w.batch.no < |s.spans| && s.spans[w.batch.no].first < |s.hist| && IsPut(s.hist[s.spans[w.batch.no].first])
    ensures !IsSettled(Remaining(s.eng.mode, w.batch.items, AckPoint.Written))
  {
    hide BatchInv, HistoryOk, SpansOk, WatermarkOk, LineOf, SpecResp, SpanOk, WellFormed;
    HistoryFromBatch(s);
    HistoryBasics(s);
    HeadWrite(s);
    var sp := s.spans[w.batch.no];
    SpanFits(s, sp);
    assert w.batch.items[0] == Expected(s, sp.first, AckPoint.Applied);
    assert w.batch.items[0].resp.Some?;
  }

  lemma HeadWrite(s: State)
    requires BatchInv(s) && s.ker.cq != [] && s.ker.cq[0].work.Write?
    requires AllWellFormed(s.hist) && |s.conns| == |s.hist| && |s.reach| == |s.hist|
    ensures BatchAt(s, s.ker.cq[0].work.batch, AckPoint.Applied)
  {
    hide HistoryOk, SpansOk, ChanOk, WaitersOk, LineOf, BatchAt, PoolOk, DistinctWrites, Ingested;
    assert Line(s)[0] == CqSlot(s.ker.cq[0]);
    assert WriteOk(s, Line(s)[0].work);
  }

  /** Reaping an fsync nobody waits for. */
  lemma GoReapUnawaited(r: Trace, s: State, ph: Phase, v: View, bk: Books, w: Work, rest: seq<Cqe>)
      returns (r': Trace, s': State)
    requires At(r, s, ph, v, bk) && MayReap(v, ph) && w.Fsync? && v.cq == [Cqe(w, 0)] + rest && v.eng.awaiting == []
    ensures At(r', s', Reaping, v.(eng := v.eng.(plan := v.eng.plan.(flushing := false)), cq := rest), bk)
  {
    hide Inv, Raise, SentAll, Ends;
    CanAlwaysReap(s);
    assert RaiseAll(s.reach, s.spans, [], Durable) == s.reach;
    s' := Next(s, ReapCqe);
    r' := Extend(r, s, ph, ReapCqe, Reaping);
  }

  /** Reaping an fsync answers the one batch that waits. */
  lemma GoReapFsync(r: Trace, s: State, ph: Phase, v: View, bk: Books, w: Work, rest: seq<Cqe>, b: Batch)
      returns (r': Trace, s': State)
    requires At(r, s, ph, v, bk) && MayReap(v, ph) && w.Fsync? && v.cq == [Cqe(w, 0)] + rest && v.eng.awaiting == [b]
    requires b.no < |bk.spans|
    ensures At(r', s', Reaping, v.(eng := v.eng.(awaiting := [], plan := v.eng.plan.(flushing := false)), cq := rest),
               LevelRaised(bk, b.no, Durable))
  {
    hide Inv, Raise, SentAll, Ends;
    CanAlwaysReap(s);
    assert [b][..0] == [];
    assert RaiseAll(s.reach, s.spans, [], Durable) == s.reach;
    s' := Next(s, ReapCqe);
    r' := Extend(r, s, ph, ReapCqe, Reaping);
  }

  // ---- Both runs: two batches submitted, with the first one's fsync between them ----

  /** The books once both PUTs have been taken. */
  function BothTaken(reach: seq<AckPoint>): Books {
    Books([BodyA, BodyB], [Span(0, 1, 1, 2), Span(1, 1, 2, 3)], reach, 3, 30)
  }

  const Fresh2: seq<AckPoint> := [AckPoint.Applied, AckPoint.Applied]

  /** First iteration: the first batch is received, an fsync armed, both submitted. */
  lemma FirstSubmitted() returns (r: Trace, s: State, a: Batch)
    ensures |a.out| >= 20 && a.no == 0
    ensures At(r, s, Submitting,
               View([], Eng([], a.hi, |a.out|, 0, true, []), [Op(Write(a, 0, 0), 0), Op(Fsync(a.hi), 0)], [], [], []),
               Books([BodyA], [Span(0, 1, 1, 2)], [AckPoint.Applied], 2, 31))
  {
    hide At, Fresh, IsPut, Redo;
    BodiesArePuts();
    r := Begin();
    var v := View([], Eng([], 1, 0, 0, false, []), [], [], [], []);
    var a0;
    r, s, a0 := GoTake(r, Fresh(), Polling, v, Books([], [], [], 1, 32), BodyA);
    var bk := Books([BodyA], [Span(0, 1, 1, 2)], [AckPoint.Applied], 2, 31);
    assert [] + [BodyA] == bk.hist && [] + [Span(0, 1, 1, 2)] == bk.spans && [] + [AckPoint.Applied] == bk.reach;
    v := v.(chan := [] + [WriteMsg(a0)]);
    r, s := GoReceive(r, s, Polling, v, bk, a0);
    a := Encoded(a0);
    v := v.(chan := [], eng := Ingest(v.eng, a0));
    r, s := GoArm(r, s, Evaluating, v, bk);
    assert [] + [Write(a, 0, 0)] + [Fsync(a.hi)] == [Write(a, 0, 0), Fsync(a.hi)];
    v := v.(eng := Eng([Write(a, 0, 0), Fsync(a.hi)], a.hi, |a.out|, 0, true, []));
    r, s := GoSubmit(r, s, v, bk, Write(a, 0, 0), [Fsync(a.hi)]);
    v := v.(eng := Eng([Fsync(a.hi)], a.hi, |a.out|, 0, true, []), ops := [] + [Op(Write(a, 0, 0), 0)]);
    r, s := GoSubmit(r, s, v, bk, Fsync(a.hi), []);
    assert [] + [Op(Write(a, 0, 0), 0)] + [Op(Fsync(a.hi), 0)] == [Op(Write(a, 0, 0), 0), Op(Fsync(a.hi), 0)];
  }

  /** What is in the ring once both batches are submitted. */
  function RingOps(a: Batch, b: Batch): seq<Op> {
    [Op(Write(a, 0, 0), 0), Op(Fsync(a.hi), 0), Op(Write(b, |a.out|, 0), 0)]
  }

  function InRing(a: Batch, b: Batch): View {
    View([], Eng([], b.hi, |a.out| + |b.out|, |b.out|, true, []), RingOps(a, b), [], [], [])
  }

  /** All three have completed, the first write with `res`. */
  function Done(a: Batch, b: Batch, res: int, data: bytes, synced: bytes): View {
    View([], Eng([], b.hi, |a.out| + |b.out|, |b.out|, true, []), [],
         [Cqe(Write(a, 0, 0), res), Cqe(Fsync(a.hi), 0), Cqe(Write(b, |a.out|, 0), |b.out|)], data, synced)
  }

  /** Second iteration: the second batch is received; a flush is running, so no fsync is armed. */
  lemma BothSubmitted() returns (r: Trace, s: State, a: Batch, b: Batch)
    ensures |a.out| >= 20 && |b.out| >= 20 && a.no == 0 && b.no == 1
    ensures At(r, s, Submitting, InRing(a, b), BothTaken(Fresh2))
  {
    hide At, IsPut, Redo;
    BodiesArePuts();
    r, s, a := FirstSubmitted();
    var ops := [Op(Write(a, 0, 0), 0), Op(Fsync(a.hi), 0)];
    var v := View([], Eng([], a.hi, |a.out|, 0, true, []), ops, [], [], []);
    var b0;
    r, s, b0 := GoTake(r, s, Submitting, v, Books([BodyA], [Span(0, 1, 1, 2)], [AckPoint.Applied], 2, 31), BodyB);
    var bk := BothTaken(Fresh2);
    assert [BodyA] + [BodyB] == bk.hist && [AckPoint.Applied] + [AckPoint.Applied] == bk.reach;
    assert [Span(0, 1, 1, 2)] + [Span(1, 1, 2, 3)] == bk.spans;
    v := v.(chan := [] + [WriteMsg(b0)]);
    r, s := GoReceive(r, s, Submitting, v, bk, b0);
    b := Encoded(b0);
    v := v.(chan := [], eng := Ingest(v.eng, b0));
    r, s := GoArm(r, s, Evaluating, v, bk);
    var w := Write(b, |a.out|, 0);
    assert [] + [w] + [] == [w];
    v := v.(eng := Eng([w], b.hi, |a.out| + |b.out|, |b.out|, true, []));
    r, s := GoSubmit(r, s, v, bk, w, []);
    assert ops + [Op(w, 0)] == RingOps(a, b);
  }

  // ---- The engine can park while a batch waits for durability ----

  /** The kernel completes both writes and the fsync between them, and the next iteration finds all three. */
  lemma AllComplete(r0: Trace, s0: State, a: Batch, b: Batch) returns (r: Trace, s: State, data: bytes, synced: bytes)
    requires At(r0, s0, Submitting, InRing(a, b), BothTaken(Fresh2))
    ensures At(r, s, Submitting, Done(a, b, |a.out|, data, synced), BothTaken(Fresh2))
  {
    hide At, WriteAt;
    var wa, f, wb := Write(a, 0, 0), Fsync(a.hi), Write(b, |a.out|, 0);
    var e, bk := Eng([], b.hi, |a.out| + |b.out|, |b.out|, true, []), BothTaken(Fresh2);
    var v := View([], e, RingOps(a, b), [], [], []);
    r, s := GoWrite(r0, s0, Submitting, v, bk, wa, [Op(f, 0), Op(wb, 0)], |a.out|);
    synced := WriteAt([], 0, a.out[..|a.out|]);
    v := View([], e, [Op(f, 0), Op(wb, 0)], [] + [Cqe(wa, |a.out|)], synced, []);
    r, s := GoFsync(r, s, Polling, v, bk, f, [Op(wb, 0)]);
    v := View([], e, [Op(wb, 0)], v.cq + [Cqe(f, 0)], synced, synced);
    r, s := GoWrite(r, s, Polling, v, bk, wb, [], |b.out|);
    data := WriteAt(synced, |a.out|, b.out[..|b.out|]);
    v := View([], e, [], v.cq + [Cqe(wb, |b.out|)], data, synced);
    r, s := GoArm(r, s, Polling, v, bk);
    assert Arm(e) == e;
    assert v.cq == [Cqe(wa, |a.out|), Cqe(f, 0), Cqe(wb, |b.out|)];
  }

  lemma ReapRest(r0: Trace, s0: State, a: Batch, b: Batch, data: bytes, synced: bytes)
      returns (r: Trace, s: State, w: Batch, bk: Books)
    requires a.no == 0 && b.no == 1
    requires At(r0, s0, Submitting, Done(a, b, |a.out|, data, synced), BothTaken(Fresh2))
    ensures At(r, s, Reaping, View([], Eng([], b.hi, |a.out| + |b.out|, |b.out|, false, [w]), [], [], data, synced), bk)
  {
    hide At, IsPut, Raise;
    BodiesArePuts();
    var wa, f, wb := Write(a, 0, 0), Fsync(a.hi), Write(b, |a.out|, 0);
    var e := Eng([], b.hi, |a.out| + |b.out|, |b.out|, true, []);
    var v := View([], e, [], [Cqe(wa, |a.out|), Cqe(f, 0), Cqe(wb, |b.out|)], data, synced);
    bk := BothTaken(Fresh2);
    r, s, w := GoReapWritten(r0, s0, Submitting, v, bk, wa, [Cqe(f, 0), Cqe(wb, |b.out|)]);
    bk := LevelRaised(bk, 0, AckPoint.Written);
    v := v.(eng := e.(awaiting := [] + [w]), cq := [Cqe(f, 0), Cqe(wb, |b.out|)]);
    r, s := GoReapFsync(r, s, Reaping, v, bk, f, [Cqe(wb, |b.out|)], w);
    bk := LevelRaised(bk, 0, Durable);
    e := Eng([], b.hi, |a.out| + |b.out|, |b.out|, false, []);
    v := v.(eng := e, cq := [Cqe(wb, |b.out|)]);
    r, s, w := GoReapWritten(r, s, Reaping, v, bk, wb, []);
    bk := LevelRaised(bk, 1, AckPoint.Written);
    assert e.(awaiting := [] + [w]) == Eng([], b.hi, |a.out| + |b.out|, |b.out|, false, [w]);
  }

  /**
   `should_park` does not mean that nobody waits: a run in loop order comes to the top of the loop with nothing
   pending, nothing in the ring and an empty channel, and still a batch waiting for durability. What
   `FsyncObligations` promises is that `dirty_bytes` remembers it.
   */
  lemma ParkedWhileOwed() returns (states: seq<State>, steps: seq<Step>)
    ensures IsRun(states, steps) && FollowsLoop(states, steps)
    ensures var s := states[|steps|];
            && s.eng.mode == Sync && ShouldPark(s) && s.chan == []
            && s.eng.awaiting != [] && s.eng.plan.dirty > 0 && !s.eng.plan.flushing
  {
    hide At, Enabled, Next, Init, Steady, Orderly, LoopStep;
    var r, s, a, b := BothSubmitted();
    var data, synced;
    r, s, data, synced := AllComplete(r, s, a, b);
    var w, bk;
    r, s, w, bk := ReapRest(r, s, a, b, data, synced);
    var v := View([], Eng([], b.hi, |a.out| + |b.out|, |b.out|, false, [w]), [], [], data, synced);
    TraceRun(r, s, Reaping, v, bk);
    states, steps := r.states, r.steps;
  }

  lemma TraceRun(r: Trace, s: State, ph: Phase, v: View, bk: Books)
    requires At(r, s, ph, v, bk)
    ensures OrderlyRun(r.states, r.steps) && SteadyRun(r.states, r.steps) && FollowsLoop(r.states, r.steps)
    ensures r.states[0] == Fresh() && r.states[|r.steps|] == s && Inv(s) && Shows(s, v) && Records(s, bk)
  {
    hide Enabled, Next, Init, Inv, Steady, Orderly, LoopStep;
    assert InLoop(r.states, r.steps, r.phases);
  }

  // ---- An answered PUT can be lost when an earlier write is retried ----

  /** The kernel interrupts the first write; the fsync and the second write go through. */
  lemma Interrupted(r0: Trace, s0: State, a: Batch, b: Batch) returns (r: Trace, s: State)
    requires At(r0, s0, Submitting, InRing(a, b), BothTaken(Fresh2))
    ensures At(r, s, Submitting, Done(a, b, -EINTR, WriteAt([], |a.out|, b.out), []), BothTaken(Fresh2))
  {
    hide At, WriteAt;
    var wa, f, wb := Write(a, 0, 0), Fsync(a.hi), Write(b, |a.out|, 0);
    var e, bk := Eng([], b.hi, |a.out| + |b.out|, |b.out|, true, []), BothTaken(Fresh2);
    var v := View([], e, RingOps(a, b), [], [], []);
    NothingWritten(0, []);
    r, s := GoWrite(r0, s0, Submitting, v, bk, wa, [Op(f, 0), Op(wb, 0)], -EINTR);
    v := View([], e, [Op(f, 0), Op(wb, 0)], [] + [Cqe(wa, -EINTR)], [], []);
    r, s := GoFsync(r, s, Polling, v, bk, f, [Op(wb, 0)]);
    v := View([], e, [Op(wb, 0)], v.cq + [Cqe(f, 0)], [], []);
    assert b.out[..|b.out|] == b.out;
    r, s := GoWrite(r, s, Polling, v, bk, wb, [], |b.out|);
    v := View([], e, [], v.cq + [Cqe(wb, |b.out|)], WriteAt([], |a.out|, b.out), []);
    r, s := GoArm(r, s, Polling, v, bk);
    assert Arm(e) == e;
    assert v.cq == [Cqe(wa, -EINTR), Cqe(f, 0), Cqe(wb, |b.out|)];
  }

  lemma NothingWritten(off: nat, data: bytes)
    ensures WriteAt(data, off, []) == data
  {
  }

  /** Third iteration: the first write goes back to `pending`, and the second batch waits for an fsync. */
  lemma SecondWaits(r0: Trace, s0: State, a: Batch, b: Batch, data: bytes) returns (r: Trace, s: State, w: Batch)
    requires |a.out| >= 20 && b.no == 1
    requires At(r0, s0, Submitting, Done(a, b, -EINTR, data, []), BothTaken(Fresh2))
    ensures w.no == 1
    ensures var n := |a.out| + |b.out|;
            At(r, s, Reaping, View([], Eng([Write(a, 0, 0)], b.hi, n, n, false, [w]), [], [], data, []),
               BothTaken([AckPoint.Applied, AckPoint.Written]))
  {
    hide At, IsPut;
    BodiesArePuts();
    var wa, f, wb := Write(a, 0, 0), Fsync(a.hi), Write(b, |a.out|, 0);
    var e, bk := Eng([], b.hi, |a.out| + |b.out|, |b.out|, true, []), BothTaken(Fresh2);
    var v := View([], e, [], [Cqe(wa, -EINTR), Cqe(f, 0), Cqe(wb, |b.out|)], data, []);
    r, s := GoReapInterrupted(r0, s0, Submitting, v, bk, wa, [Cqe(f, 0), Cqe(wb, |b.out|)]);
    assert [wa] + [] == [wa];
    e := Eng([wa], b.hi, |a.out| + |b.out|, |b.out| + |a.out|, true, []);
    v := v.(eng := e, cq := [Cqe(f, 0), Cqe(wb, |b.out|)]);
    r, s := GoReapUnawaited(r, s, Reaping, v, bk, f, [Cqe(wb, |b.out|)]);
    e := Eng([wa], b.hi, |a.out| + |b.out|, |b.out| + |a.out|, false, []);
    v := v.(eng := e, cq := [Cqe(wb, |b.out|)]);
    r, s, w := GoReapWritten(r, s, Reaping, v, bk, wb, []);
    assert e.(awaiting := [] + [w]) == Eng([wa], b.hi, |a.out| + |b.out|, |a.out| + |b.out|, false, [w]);
    assert Raise(Fresh2, Span(1, 1, 2, 3), AckPoint.Written) == [AckPoint.Applied, AckPoint.Written];
  }

  /** The retried write has been interrupted again, and the fsync behind it has completed. */
  function Again(a: Batch, last: nat, n: nat, w: Batch, data: bytes): View {
    View([], Eng([], last, n, 0, true, [w]), [], [Cqe(Write(a, 0, 0), -EINTR), Cqe(Fsync(last), 0)], data, data)
  }

  /** Fourth iteration: an fsync is armed behind the retried write, and the write is interrupted again. */
  lemma InterruptedAgain(r0: Trace, s0: State, a: Batch, last: nat, n: nat, w: Batch, data: bytes)
      returns (r: Trace, s: State)
    requires n > 0
    requires At(r0, s0, Reaping, View([], Eng([Write(a, 0, 0)], last, n, n, false, [w]), [], [], data, []),
                BothTaken([AckPoint.Applied, AckPoint.Written]))
    ensures At(r, s, Submitting, Again(a, last, n, w, data), BothTaken([AckPoint.Applied, AckPoint.Written]))
  {
    hide At, WriteAt;
    var wa, f, bk := Write(a, 0, 0), Fsync(last), BothTaken([AckPoint.Applied, AckPoint.Written]);
    var v := View([], Eng([wa], last, n, n, false, [w]), [], [], data, []);
    r, s := GoArm(r0, s0, Reaping, v, bk);
    assert [wa] + [f] == [wa, f];
    v := v.(eng := Eng([wa, f], last, n, 0, true, [w]));
    r, s := GoSubmit(r, s, v, bk, wa, [f]);
    v := v.(eng := Eng([f], last, n, 0, true, [w]), ops := [] + [Op(wa, 0)]);
    r, s := GoSubmit(r, s, v, bk, f, []);
    var e := Eng([], last, n, 0, true, [w]);
    v := v.(eng := e, ops := [] + [Op(wa, 0)] + [Op(f, 0)]);
    NothingWritten(0, data);
    r, s := GoWrite(r, s, Submitting, v, bk, wa, [Op(f, 0)], -EINTR);
    v := View([], e, [Op(f, 0)], [] + [Cqe(wa, -EINTR)], data, []);
    r, s := GoFsync(r, s, Polling, v, bk, f, []);
    v := View([], e, [], v.cq + [Cqe(f, 0)], data, data);
    r, s := GoArm(r, s, Polling, v, bk);
    assert Arm(e) == e;
    assert v.cq == [Cqe(wa, -EINTR), Cqe(f, 0)];
  }

  /** Fifth iteration: the fsync answers the second batch, with the first one still missing. */
  lemma SecondAnswered(r0: Trace, s0: State, a: Batch, last: nat, n: nat, w: Batch, data: bytes)
      returns (r: Trace, s: State)
    requires w.no == 1
    requires At(r0, s0, Submitting, Again(a, last, n, w, data), BothTaken([AckPoint.Applied, AckPoint.Written]))
    ensures At(r, s, Reaping, View([], Eng([Write(a, 0, 0)], last, n, |a.out|, false, []), [], [], data, data),
               BothTaken([AckPoint.Applied, Durable]))
  {
    hide At;
    var wa, f, bk := Write(a, 0, 0), Fsync(last), BothTaken([AckPoint.Applied, AckPoint.Written]);
    var v := View([], Eng([], last, n, 0, true, [w]), [], [Cqe(wa, -EINTR), Cqe(f, 0)], data, data);
    r, s := GoReapInterrupted(r0, s0, Submitting, v, bk, wa, [Cqe(f, 0)]);
    assert [wa] + [] == [wa];
    v := v.(eng := Eng([wa], last, n, |a.out|, true, [w]), cq := [Cqe(f, 0)]);
    r, s := GoReapFsync(r, s, Reaping, v, bk, f, [], w);
    assert Raise([AckPoint.Applied, AckPoint.Written], Span(1, 1, 2, 3), Durable) == [AckPoint.Applied, Durable];
  }

  lemma {:induction false} CountedAnswered(rs: seq<Reply>, id: nat)
    requires Count(rs, id) > 0
    ensures exists i :: 0 <= i < |rs| && rs[i].id == id
  {
    var n := |rs| - 1;
    if rs[n].id != id {
      CountedAnswered(rs[..n], id);
      var i :| 0 <= i < n && rs[..n][i].id == id;
      assert rs[i].id == id;
    }
  }

  /**
   The no-retry hypothesis of `CrashRecovers` is needed. In Sync mode, in loop order, with one write
   interrupted twice and a crash that keeps every byte, an answered PUT is gone: recovery stops at the hole
   the retried write has yet to fill and returns the empty map.
   */
  lemma RetriedWriteLosesAnswered() returns (states: seq<State>, steps: seq<Step>, imgs: seq<bytes>)
    ensures OrderlyRun(states, steps) && SteadyRun(states, steps) && FollowsLoop(states, steps)
    ensures CleanStart(states[0], 0, Progress(map[], 0))
    ensures var s := states[|steps|];
            && s.eng.mode == Sync && |s.hist| == 2 && IsPut(s.hist[1]) && Answered(s, 1)
            && CrashImages(s, imgs)
            && RecoverFrom(None, imgs) == Recovered(map[], 1)
  {
    hide At, Enabled, Next, Init, Inv, IsPut, CleanStart, CrashImages, WriteAt, Steady, Orderly, RecoverFrom,
         Answered, FollowsLoop;
    BodiesArePuts();
    FreshInit();
    var r, s, a, b := BothSubmitted();
    r, s := Interrupted(r, s, a, b);
    var data := WriteAt([], |a.out|, b.out);
    var w;
    r, s, w := SecondWaits(r, s, a, b, data);
    var n := |a.out| + |b.out|;
    r, s := InterruptedAgain(r, s, a, b.hi, n, w, data);
    r, s := SecondAnswered(r, s, a, b.hi, n, w, data);
    TraceRun(r, s, Reaping, View([], Eng([Write(a, 0, 0)], b.hi, n, |a.out|, false, []), [], [], data, data),
      BothTaken([AckPoint.Applied, Durable]));
    imgs := [data];
    Lost(s, |a.out|, b.out);
    AnsweredAt(s, 1);
    states, steps := r.states, r.steps;
  }

  lemma AnsweredAt(s: State, id: nat)
    requires Inv(s) && s.eng.mode == Sync && id < |s.hist| && |s.reach| == |s.hist| && s.reach[id] == Durable
    requires IsPut(s.hist[id])
    ensures Answered(s, id)
  {
    hide Inv, RouteInv, BatchInv, IoInv, DurableInv, OutInv, Buffers.BufferInv, ContentInv, RepliesOk, Count,
         WellFormed;
    InvParts(s);
    assert Count(s.replies, id) == Answers(s.eng.mode, s.hist, s.reach, id);
    CountedAnswered(s.replies, id);
  }

  lemma Lost(s: State, hole: nat, out: bytes)
    requires s.ker.dir == map[1 := 0] && |s.ker.files| == 1 && hole >= 12 && |out| > 0
    requires s.ker.files[0].data == WriteAt([], hole, out) && s.ker.files[0].synced == WriteAt([], hole, out)
    ensures CrashImages(s, [WriteAt([], hole, out)])
    ensures RecoverFrom(None, [WriteAt([], hole, out)]) == Recovered(map[], 1)
  {
    hide Replay, EncodeLog, Names.Sorted;
    var img := WriteAt([], hole, out);
    SoleName(s);
    assert ImageAt(s, 0, img) by { KeptWhole(s, 0); }
    assert img == Zeros(hole) + out;
    EmptyLog();
    assert EncodeLog([]) + (Zeros(hole) + out) == img;
    HoleStopsReplay([], hole, out, 0, Progress(map[], 0));
    OneSegment(img, 0, Progress(map[], 0));
  }

  lemma SoleName(s: State)
    requires s.ker.dir == map[1 := 0] && |s.ker.files| == 1
    ensures DirOk(s.ker.files, s.ker.dir) && Names.Sorted(s.ker.dir.Keys) == [1]
  {
    assert s.ker.dir.Keys == {1};
    Names.SortedMax({1}, 1);
    assert {1} - {1} == {};
    assert Names.Sorted({}) == [];
  }

  /** A crash may keep everything. */
  lemma KeptWhole(s: State, ino: nat)
    requires ino < |s.ker.files| && |s.ker.files[ino].synced| <= |s.ker.files[ino].data|
    ensures CrashImage(s, ino, s.ker.files[ino].data)
  {
    var f := s.ker.files[ino];
    forall k | 0 <= k < |s.locs| && s.locs[k].ino == ino ensures CrashFiles.Keeps(f, f.data, s.locs[k]) {
    }
  }

  // ---- A request that is never answered ----

  /** A request with an unknown opcode, alone in its batch: the batch is recycled and nothing is sent. */
  lemma UnknownDropped() returns (states: seq<State>, steps: seq<Step>)
    ensures IsRun(states, steps) && FollowsLoop(states, steps)
    ensures var s := states[|steps|];
            && s.eng.mode == Sync && s.hist == [[7]] && OpOf(s.hist[0]).Unknown? && Count(s.replies, 0) == 0
            && s.spans == [] && s.held.Some? && s.held.value.Cleared()
  {
    var s, step := Fresh(), Take([Req(0, [7])]);
    FreshInit();
    assert s.pool != [] && s.hist == [] && s.spans == [] && s.replies == [];
    hide Init, Fresh, Enabled, Next, FollowsLoop, Count;
    TakeUnknown(s);
    states, steps := [s, Next(s, step)], [step];
    OneTake(s, step);
  }

  lemma OneTake(s: State, step: Step)
    requires Init(s) && step.Take? && Enabled(s, step)
    ensures IsRun([s, Next(s, step)], [step]) && FollowsLoop([s, Next(s, step)], [step])
  {
    hide Init, Enabled, Next;
    assert InLoop([s, Next(s, step)], [step], [Polling, Polling]);
  }

  lemma TakeUnknown(s: State)
    requires s.held.None? && s.pool != [] && s.hist == [] && s.spans == [] && s.replies == [] && s.eng.mode == Sync
    ensures var step := Take([Req(0, [7])]);
            && Enabled(s, step)
            && var t := Next(s, step);
            && t.hist == [[7]] && t.spans == [] && t.eng == s.eng
            && Count(t.replies, 0) == 0
            && t.held.Some? && t.held.value.Cleared()
  {
    hide Exec, RespTo, ApplyRequests, Sent, Remaining, RecsOf, Count;
    var reqs := [Req(0, [7])];
    assert Datas(reqs) == [[7]] && AllWellFormed(Datas(reqs));
    NoPut(s.lsn);
    UnknownUnsent(s.db);
    TakeFields(s, reqs);
    assert Next(s, Take(reqs)).replies == [];
  }

  lemma NoPut(lsn: nat)
    ensures AllWellFormed([[7]]) && RecsOf(lsn, [[7]]) == []
  {
    assert [[7]][..0] == [] && RecsOf(lsn, []) == [];
  }

  lemma UnknownUnsent(db: Kv)
    ensures AllWellFormed(Datas([Req(0, [7])])) && ItemsWellFormed(ApplyRequests(db, 0, [Req(0, [7])]))
    ensures Sent(Sync, ApplyRequests(db, 0, [Req(0, [7])]), AckPoint.Applied) == [] && Count([], 0) == 0
  {
    hide Exec, RespTo, ApplyRequests;
    var reqs := [Req(0, [7])];
    assert Datas(reqs) == [[7]];
    var items := ApplyRequests(db, 0, reqs);
    assert items[0].data == [7];
    assert !Released(Sync, items[0], AckPoint.Applied);
    assert items[..0] == [] && Sent(Sync, [], AckPoint.Applied) == [];
  }
}
