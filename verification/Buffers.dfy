/**
 The buffer ring (crates/server/src/main.rs, README.md): the 32 batches circulate and are never lost or
 duplicated. At every moment each is in exactly one of: the free pool, stage 2's hand, the channel, the
 line of I/O, or the batches waiting for an fsync.
 */
module Buffers {
  import opened Bytes
  import opened Types
  import opened Acker
  import opened IoWork
  import opened IoLine
  import opened WalCore
  import opened Pipeline
  import opened LineSteps
  import opened Batches
  import opened BatchSteps

  function Bufs(bs: seq<Batch>): multiset<nat> {
    if bs == [] then multiset{} else Bufs(bs[..|bs| - 1]) + BatchBuf(bs[|bs| - 1])
  }

  function BatchBuf(b: Batch): multiset<nat> { multiset{b.buf} }

  function SlotBuf(x: Slot): multiset<nat> {
    if x.work.Write? then multiset{x.work.batch.buf} else multiset{}
  }

  function LineBufs(line: seq<Slot>): multiset<nat> {
    if line == [] then multiset{} else LineBufs(line[..|line| - 1]) + SlotBuf(line[|line| - 1])
  }

  function HeldBuf(held: Option<Batch>): multiset<nat> {
    if held.None? then multiset{} else multiset{held.value.buf}
  }

  /** The buffers in each place, counted together. */
  function Ring(s: State): multiset<nat> {
    Bufs(s.pool) + HeldBuf(s.held) + Bufs(WritesIn(s.chan)) + LineBufs(Line(s)) + Bufs(s.eng.awaiting)
  }

  function AllBuffers(n: nat): (m: multiset<nat>)
    ensures |m| == n
    ensures forall i: nat :: m[i] == if i < n then 1 else 0
  {
    if n == 0 then multiset{} else AllBuffers(n - 1) + multiset{n - 1}
  }

  ghost predicate BufferInv(s: State) { Ring(s) == AllBuffers(N_BUFFERS) }

  // ---- Sums ----

  lemma SumAssoc(a: multiset<nat>, b: multiset<nat>, c: multiset<nat>)
    ensures a + b + c == a + (b + c)
  {
  }

  lemma {:induction false} BufsAppend(a: seq<Batch>, b: seq<Batch>)
    ensures Bufs(a + b) == Bufs(a) + Bufs(b)
  {
    hide BatchBuf;
    if b == [] {
      assert a + b == a;
    } else {
      BufsAppend(a, b[..|b| - 1]);
      assert (a + b)[..|a + b| - 1] == a + b[..|b| - 1] && (a + b)[|a + b| - 1] == b[|b| - 1];
      SumAssoc(Bufs(a), Bufs(b[..|b| - 1]), BatchBuf(b[|b| - 1]));
    }
  }

  lemma BufsOne(b: Batch)
    ensures Bufs([b]) == multiset{b.buf}
  {
    assert [b][..0] == [];
  }

  lemma {:induction false} LineBufsAppend(a: seq<Slot>, b: seq<Slot>)
    ensures LineBufs(a + b) == LineBufs(a) + LineBufs(b)
  {
    hide SlotBuf;
    if b == [] {
      assert a + b == a;
    } else {
      LineBufsAppend(a, b[..|b| - 1]);
      assert (a + b)[..|a + b| - 1] == a + b[..|b| - 1] && (a + b)[|a + b| - 1] == b[|b| - 1];
      SumAssoc(LineBufs(a), LineBufs(b[..|b| - 1]), SlotBuf(b[|b| - 1]));
    }
  }

  lemma LineBufsOne(x: Slot)
    ensures LineBufs([x]) == SlotBuf(x)
  {
    assert [x][..0] == [];
  }

  lemma {:induction false} LineBufsNone(line: seq<Slot>)
    requires forall i :: 0 <= i < |line| ==> !line[i].work.Write?
    ensures LineBufs(line) == multiset{}
  {
    if line != [] { LineBufsNone(line[..|line| - 1]); }
  }

  /** Taking `a + b + [x] + c` apart in either order counts the same. */
  lemma LineBufsSwap(a: seq<Slot>, b: seq<Slot>, c: seq<Slot>, x: Slot, y: Slot)
    requires SlotBuf(x) == SlotBuf(y)
    ensures LineBufs(a + [x] + b + c) == LineBufs(a + b + [y] + c)
  {
    hide LineBufs, SlotBuf;
    LineBufsAppend(a + [x] + b, c);
    LineBufsAppend(a + [x], b);
    LineBufsAppend(a, [x]);
    LineBufsAppend(a + b + [y], c);
    LineBufsAppend(a + b, [y]);
    LineBufsAppend(a, b);
    LineBufsOne(x);
    LineBufsOne(y);
  }

  lemma LineBufsMoved(line: seq<Slot>, c: nat, m: nat, x: Slot)
    requires c <= m < |line| && x.work == line[m].work
    ensures LineBufs(Moved(line, c, m, x)) == LineBufs(line)
  {
    hide LineBufs, SlotBuf, Moved;
    var a, b, d := line[..c], line[c..m], line[m + 1..];
    MovedParts(line, c, m, x);
    assert SlotBuf(x) == SlotBuf(line[m]) by { SameBuf(x, line[m]); }
    LineBufsSwap(a, b, d, x, line[m]);
  }

  lemma MovedParts(line: seq<Slot>, c: nat, m: nat, x: Slot)
    requires c <= m < |line|
    ensures Moved(line, c, m, x) == line[..c] + [x] + line[c..m] + line[m + 1..]
    ensures line == line[..c] + line[c..m] + [line[m]] + line[m + 1..]
  {
  }

  lemma SameBuf(x: Slot, y: Slot)
    requires x.work == y.work
    ensures SlotBuf(x) == SlotBuf(y)
  {
  }

  lemma LineBufsRequeued(line: seq<Slot>, q: nat)
    requires 0 <= q < |line| && line[0].work.Write?
    ensures LineBufs(Requeued(line, q)) == LineBufs(line)
  {
    hide LineBufs, SlotBuf, Requeued, Resumed;
    var b, d := line[1..q + 1], line[q + 1..];
    RequeuedParts(line, q);
    assert SlotBuf(Resumed(line[0])) == SlotBuf(line[0]) by { ResumedBuf(line[0]); }
    LineBufsSwap([], b, d, line[0], Resumed(line[0]));
  }

  lemma RequeuedParts(line: seq<Slot>, q: nat)
    requires 0 <= q < |line| && line[0].work.Write?
    ensures Requeued(line, q) == [] + line[1..q + 1] + [Resumed(line[0])] + line[q + 1..]
    ensures line == [] + [line[0]] + line[1..q + 1] + line[q + 1..]
  {
    hide Resumed;
  }

  lemma ResumedBuf(x: Slot)
    requires x.work.Write?
    ensures SlotBuf(Resumed(x)) == SlotBuf(x)
  {
  }

  lemma LineBufsTail(line: seq<Slot>)
    requires line != []
    ensures LineBufs(line) == SlotBuf(line[0]) + LineBufs(line[1..])
  {
    hide LineBufs, SlotBuf;
    assert line == [line[0]] + line[1..];
    LineBufsAppend([line[0]], line[1..]);
    LineBufsOne(line[0]);
  }

  // ---- Steps ----

  lemma BufferInit(s: State)
    requires Init(s)
    ensures BufferInv(s)
  {
    hide FreeBuffer, AllBuffers;
    assert Line(s) == [] && WritesIn([]) == [] && LineBufs([]) == multiset{};
    PoolBuffers(N_BUFFERS);
    assert s.pool == seq(N_BUFFERS, i requires 0 <= i => FreeBuffer(i));
  }

  lemma {:induction false} PoolBuffers(n: nat)
    ensures Bufs(seq(n, i requires 0 <= i => FreeBuffer(i))) == AllBuffers(n)
  {
    var p := seq(n, i requires 0 <= i => FreeBuffer(i));
    if n > 0 {
      PoolBuffers(n - 1);
      assert p[..n - 1] == seq(n - 1, i requires 0 <= i => FreeBuffer(i));
      assert p[n - 1] == FreeBuffer(n - 1) && BatchBuf(p[n - 1]) == multiset{n - 1};
      hide FreeBuffer;
    }
  }

  lemma BufferTake(s: State, reqs: seq<Req>)
    requires BufferInv(s) && CanTake(s, reqs)
    ensures BufferInv(TakeBatch(s, reqs))
  {
    hide LineOf, LineBufs, Bufs, WritesIn, ApplyRequests, Sent, Remaining, Stage2.Exec, Stage2.RecsOf, AllBuffers;
    var t := TakeBatch(s, reqs);
    var b := TakenBatch(s, reqs);
    if s.held.None? {
      assert s.pool == [s.pool[0]] + s.pool[1..];
      BufsAppend([s.pool[0]], s.pool[1..]);
      BufsOne(s.pool[0]);
    }
    if b.HasWalWork() {
      WritesSnoc(s.chan, WriteMsg(b));
      BufsAppend(WritesIn(s.chan), [b]);
      BufsOne(b);
    }
  }

  lemma BufferReceiveWrite(s: State)
    requires BufferInv(s) && CanReceive(s) && s.chan[0].WriteMsg?
    ensures BufferInv(ReceiveWrite(s))
  {
    hide LineOf, LineBufs, Bufs, AllBuffers, Grown, Redo;
    var t := ReceiveWrite(s);
    var b := s.chan[0].batch;
    var x := SlotOf(Write(Encoded(b), s.eng.seg.offset, 0));
    LineAppend(s.ker.cq, s.ker.ops, s.eng.pending, x.work);
    LineBufsAppend(Line(s), [x]);
    LineBufsOne(x);
    BufsAppend([b], WritesIn(t.chan));
    BufsOne(b);
    assert WritesIn(s.chan) == [b] + WritesIn(t.chan);
    Handover(Bufs(s.pool) + HeldBuf(s.held), Bufs(WritesIn(t.chan)), LineBufs(Line(s)),
             Bufs(s.eng.awaiting), multiset{b.buf});
  }

  lemma Handover(p: multiset<nat>, c: multiset<nat>, l: multiset<nat>, a: multiset<nat>, x: multiset<nat>)
    ensures p + (x + c) + l + a == p + c + (l + x) + a
  {
  }

  lemma BufferReceive(s: State)
    requires BufferInv(s) && CanReceive(s)
    ensures BufferInv(ReceiveMsg(s))
  {
    hide LineOf, LineBufs, Bufs, AllBuffers, Names.Sorted, ReceiveWrite;
    if s.chan[0].WriteMsg? {
      BufferReceiveWrite(s);
    } else {
      BufferOther(s);
    }
  }

  lemma BufferOther(s: State)
    requires BufferInv(s) && CanReceive(s) && !s.chan[0].WriteMsg?
    ensures BufferInv(ReceiveMsg(s))
  {
    hide LineOf, LineBufs, Bufs, AllBuffers, Names.Sorted, ReceiveWrite;
    var t := ReceiveMsg(s);
    var more := Line(t)[|Line(s)|..];
    LineGrows(s.ker.cq, s.ker.ops, s.eng.pending, t.eng.pending);
    LineBufsAppend(Line(s), more);
    LineBufsNone(more);
    assert LineBufs(Line(t)) == LineBufs(Line(s));
    assert WritesIn(s.chan) == WritesIn(t.chan);
  }

  lemma LineGrows(cq: seq<Cqe>, ops: seq<Op>, p: seq<Work>, p': seq<Work>)
    requires p <= p'
    ensures var a, b := LineOf(cq, ops, p), LineOf(cq, ops, p');
            b == a + b[|a|..] && forall i :: |a| <= i < |b| ==> b[i] == SlotOf(p'[i - |cq| - |ops|])
  {
    hide LineOf;
    var a, b := LineOf(cq, ops, p), LineOf(cq, ops, p');
    assert forall i :: 0 <= i < |a| ==> a[i] == b[i];
  }

  lemma BufferArm(s: State)
    requires BufferInv(s)
    ensures BufferInv(s.(eng := Arm(s.eng)))
  {
    hide LineOf, LineBufs, Bufs, AllBuffers, WritesIn;
    var t := s.(eng := Arm(s.eng));
    var more := Line(t)[|Line(s)|..];
    assert Line(t) == Line(s) + more by { assert forall i :: 0 <= i < |Line(s)| ==> Line(t)[i] == Line(s)[i]; }
    LineBufsAppend(Line(s), more);
    LineBufsNone(more);
  }

  lemma {:induction false} FreedBufs(bs: seq<Batch>)
    ensures Bufs(Freed(bs)) == Bufs(bs)
  {
    hide Freed;
    if bs != [] {
      FreedBufs(bs[..|bs| - 1]);
      assert Freed(bs)[..|bs| - 1] == Freed(bs[..|bs| - 1]);
    }
  }

  lemma BufferReap(s: State)
    requires BufferInv(s) && CanReap(s)
    ensures BufferInv(ReapHead(s))
  {
    hide LineOf, LineBufs, Bufs, AllBuffers, WritesIn, ReapHead, CanReap, Ring;
    ReapNonempty(s);
    var c := s.ker.cq[0];
    match Complete(c.work, c.res)
    case Finished(Some(b)) => BufferReapWritten(s, b);
    case Retry(w) => BufferReapRetry(s);
    case Finished(None) => BufferReapOther(s);
    case Flushed => BufferReapFlush(s);
  }

  lemma ReapNonempty(s: State)
    requires CanReap(s)
    ensures s.ker.cq != [] && Complete(s.ker.cq[0].work, s.ker.cq[0].res) != Fatal
  {
  }

  lemma BufferReapWritten(s: State, b: Batch)
    requires BufferInv(s) && CanReap(s) && Complete(s.ker.cq[0].work, s.ker.cq[0].res) == Finished(Some(b))
    ensures BufferInv(ReapHead(s))
  {
    hide LineOf, LineBufs, Bufs, AllBuffers, WritesIn, Sent, Raise, IsSettled, Remaining;
    var t := ReapHead(s);
    assert Line(s)[0].work == s.ker.cq[0].work;
    LineBufsTail(Line(s));
    LineReap(s.ker.cq, s.ker.ops, s.eng.pending);
    BufferWritten(s, t, b);
    Shift(Bufs(s.pool), HeldBuf(s.held), Bufs(WritesIn(s.chan)), LineBufs(Line(t)), Bufs(s.eng.awaiting),
          Bufs(t.pool), Bufs(t.eng.awaiting), multiset{b.buf});
  }

  lemma BufferReapRetry(s: State)
    requires BufferInv(s) && CanReap(s) && Complete(s.ker.cq[0].work, s.ker.cq[0].res).Retry?
    ensures BufferInv(ReapHead(s))
  {
    hide LineOf, LineBufs, Bufs, AllBuffers, WritesIn, Requeued;
    assert Line(s)[0].work == s.ker.cq[0].work;
    assert s.pool + [] == s.pool;
    LineRetry(s.ker.cq, s.ker.ops, s.eng.pending);
    LineBufsRequeued(Line(s), |s.ker.cq| - 1 + |s.ker.ops|);
  }

  lemma BufferReapOther(s: State)
    requires BufferInv(s) && CanReap(s) && Complete(s.ker.cq[0].work, s.ker.cq[0].res) == Finished(None)
    ensures BufferInv(ReapHead(s))
  {
    hide LineOf, LineBufs, Bufs, AllBuffers, WritesIn;
    assert Line(s)[0].work == s.ker.cq[0].work;
    LineBufsTail(Line(s));
    LineReap(s.ker.cq, s.ker.ops, s.eng.pending);
    assert s.pool + [] == s.pool;
  }

  lemma BufferReapFlush(s: State)
    requires BufferInv(s) && CanReap(s) && Complete(s.ker.cq[0].work, s.ker.cq[0].res).Flushed?
    ensures BufferInv(ReapHead(s))
  {
    hide LineOf, LineBufs, Bufs, AllBuffers, WritesIn, SentAll, RaiseAll, Freed;
    assert Line(s)[0].work == s.ker.cq[0].work;
    LineBufsTail(Line(s));
    LineReap(s.ker.cq, s.ker.ops, s.eng.pending);
    BufsAppend(s.pool, Freed(s.eng.awaiting));
    FreedBufs(s.eng.awaiting);
    BufsNil();
  }

  lemma Shift(p: multiset<nat>, h: multiset<nat>, c: multiset<nat>, l: multiset<nat>, a: multiset<nat>,
              p': multiset<nat>, a': multiset<nat>, x: multiset<nat>)
    requires p' + a' == p + a + x
    ensures p' + h + c + l + a' == p + h + c + (x + l) + a
  {
    forall i: nat ensures (p' + h + c + l + a')[i] == (p + h + c + (x + l) + a)[i] {
      assert (p' + a')[i] == (p + a + x)[i];
    }
  }

  lemma BufsNil()
    ensures Bufs([]) == multiset{}
  {
  }

  lemma BufferWritten(s: State, t: State, b: Batch)
    requires ItemsWellFormed(b.items)
    requires t.pool == s.pool + OnWritten(s.eng, b).freed && t.eng.awaiting == OnWritten(s.eng, b).eng.awaiting
    ensures Bufs(t.pool) + Bufs(t.eng.awaiting) == Bufs(s.pool) + Bufs(s.eng.awaiting) + multiset{b.buf}
  {
    hide Bufs, IsSettled, Remaining, Sent;
    var left := b.(items := Remaining(s.eng.mode, b.items, AckPoint.Written));
    if IsSettled(left.items) {
      BufsAppend(s.pool, [b.Recycle()]);
      BufsOne(b.Recycle());
    } else {
      assert s.pool + [] == s.pool;
      BufsAppend(s.eng.awaiting, [left]);
      BufsOne(left);
    }
  }

  lemma BufferRotate(s: State)
    requires BufferInv(s) && CanFinishRotate(s)
    ensures BufferInv(Rotate(s))
  {
    hide LineOf, LineBufs, Bufs, AllBuffers, WritesIn, SentAll, RaiseAll, Freed;
    var t := Rotate(s);
    assert Line(s) == [] && Line(t) == [];
    BufsAppend(s.pool, Freed(s.eng.awaiting));
    FreedBufs(s.eng.awaiting);
    BufsNil();
  }

  lemma BufferPosted(s: State, k: Kernel, i: nat, res: int)
    requires BufferInv(s) && i < |s.ker.ops|
    requires k.ops == Without(s.ker.ops, i) && k.cq == s.ker.cq + [Cqe(s.ker.ops[i].work, res)]
    ensures BufferInv(s.(ker := k))
  {
    hide LineOf, LineBufs, Bufs, AllBuffers, WritesIn, Moved, Without, CqSlot;
    LinePost(s.ker.cq, s.ker.ops, s.eng.pending, i, res);
    assert Line(s)[|s.ker.cq| + i] == SlotOf(s.ker.ops[i].work);
    CqSlotWork(Cqe(s.ker.ops[i].work, res));
    LineBufsMoved(Line(s), |s.ker.cq|, |s.ker.cq| + i, CqSlot(Cqe(s.ker.ops[i].work, res)));
  }

  lemma BufferStep(s: State, step: Step)
    requires BufferInv(s) && Enabled(s, step)
    ensures BufferInv(Next(s, step))
  {
    hide LineOf, TakeBatch, ReceiveMsg, ReapHead, Rotate, Landing, Bufs, LineBufs, WritesIn, AllBuffers;
    match step
    case Take(reqs) => BufferTake(s, reqs);
    case Post(msg) => WritesSnoc(s.chan, msg); assert WritesIn(s.chan) + [] == WritesIn(s.chan);
    case Receive => BufferReceive(s);
    case ArmFsync => BufferArm(s);
    case Submit => LineSubmit(s.ker.cq, s.ker.ops, s.eng.pending, s.eng.seg.ino);
    case KernelWrite(i, res) => BufferPosted(s, DoWrite(s.ker, i, res), i, res);
    case KernelFsync =>
      assert Without(s.ker.ops, 0) == s.ker.ops[1..];
      BufferPosted(s, DoFsync(s.ker), 0, 0);
    case FailFsync(res) =>
      assert Without(s.ker.ops, 0) == s.ker.ops[1..];
      BufferPosted(s, FsyncFailed(s.ker, res), 0, res);
    case KernelRemove(i, gone) => BufferPosted(s, DoRemove(s.ker, i, gone), i, if gone then 0 else -2);
    case ReapCqe => BufferReap(s);
    case FinishRotate => BufferRotate(s);
  }

  lemma {:induction false} BufsSize(bs: seq<Batch>)
    ensures |Bufs(bs)| == |bs|
  {
    if bs != [] { BufsSize(bs[..|bs| - 1]); }
  }

  /** At most 32 batches wait for an fsync. */
  lemma AwaitingBounded(s: State)
    requires BufferInv(s)
    ensures |s.eng.awaiting| <= N_BUFFERS
  {
    hide LineOf, LineBufs, Bufs, WritesIn;
    BufsSize(s.eng.awaiting);
    var rest := Bufs(s.pool) + HeldBuf(s.held) + Bufs(WritesIn(s.chan)) + LineBufs(Line(s));
    assert |rest + Bufs(s.eng.awaiting)| == |rest| + |Bufs(s.eng.awaiting)|;
  }
}
