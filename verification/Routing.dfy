/**
 Rotation safety (crates/server/src/stage3/mod.rs): whatever the interleaving of Write, Rotate and
 Retire messages, an operation is submitted against the segment its batch was placed in, and no unlink
 ever names the active segment.
 */
module Routing {
  import opened IoWork
  import opened Acker
  import opened IoLine
  import opened WalCore
  import opened Pipeline
  import opened LineSteps

  /** The active segment is open under its own name, and no two names share a file. */
  ghost predicate SegmentOpen(k: Kernel, seg: Segment) {
    && (forall n :: n in k.dir ==> k.dir[n] < |k.files|)
    && (forall m, n :: m in k.dir && n in k.dir && m != n ==> k.dir[m] != k.dir[n])
    && seg.start in k.dir && k.dir[seg.start] == seg.ino
  }

  ghost predicate RemovesBelow(line: seq<Slot>, bound: nat) {
    forall i :: 0 <= i < |line| && line[i].work.Remove? ==> line[i].work.name < bound
  }

  ghost predicate RouteInv(s: State) {
    && SegmentOpen(s.ker, s.eng.seg)
    && (forall i :: 0 <= i < |s.ker.ops| ==> s.ker.ops[i].fd == s.eng.seg.ino)
    && RemovesBelow(Line(s), s.eng.seg.start)
  }

  lemma RouteInit(s: State)
    requires Init(s)
    ensures RouteInv(s)
  {
  }

  lemma {:induction false} AppendRemovals(cq: seq<Cqe>, ops: seq<Op>, pending: seq<Work>, names: seq<nat>, bound: nat)
    requires RemovesBelow(LineOf(cq, ops, pending), bound)
    requires forall i :: 0 <= i < |names| ==> names[i] < bound
    ensures RemovesBelow(LineOf(cq, ops, pending + Removals(names)), bound)
  {
    hide LineOf, Removals;
    var a, b := LineOf(cq, ops, pending), LineOf(cq, ops, pending + Removals(names));
    forall i | 0 <= i < |b| && b[i].work.Remove? ensures b[i].work.name < bound {
      if i < |a| { assert a[i] == b[i]; }
    }
  }

  lemma RouteReceive(s: State)
    requires RouteInv(s) && CanReceive(s)
    ensures RouteInv(ReceiveMsg(s))
  {
    hide LineOf, Names.Sorted, Encoded;
    match s.chan[0]
    case WriteMsg(b) =>
      LineAppend(s.ker.cq, s.ker.ops, s.eng.pending, Write(Encoded(b), s.eng.seg.offset, 0));
    case RotateMsg(_) =>
    case RetireMsg(b) =>
      var names := Below(s.ker.dir.Keys, b);
      assert forall i :: 0 <= i < |names| ==> names[i] in names;
      AppendRemovals(s.ker.cq, s.ker.ops, s.eng.pending, Below(s.ker.dir.Keys, b), s.eng.seg.start);
  }

  lemma RemovesMoved(line: seq<Slot>, c: nat, m: nat, x: Slot, bound: nat)
    requires RemovesBelow(line, bound) && c <= m < |line| && x.work == line[m].work
    ensures RemovesBelow(Moved(line, c, m, x), bound)
  {
    hide Moved;
  }

  lemma RemovesRequeued(line: seq<Slot>, q: nat, bound: nat)
    requires RemovesBelow(line, bound) && 0 <= q < |line| && line[0].work.Write?
    ensures RemovesBelow(Requeued(line, q), bound)
  {
    hide Requeued;
  }

  /** A completion drops the operation from `ops`, and may drop a name other than the active segment's. */
  lemma RoutePost(s: State, k: Kernel, i: nat, res: int)
    requires RouteInv(s) && i < |s.ker.ops|
    requires k.ops == Without(s.ker.ops, i) && k.cq == s.ker.cq + [Cqe(s.ker.ops[i].work, res)]
    requires |k.files| == |s.ker.files|
    requires k.dir == s.ker.dir || (s.ker.ops[i].work.Remove? && k.dir == s.ker.dir - {s.ker.ops[i].work.name})
    ensures RouteInv(s.(ker := k))
  {
    hide LineOf, Moved, RemovesBelow;
    var line := Line(s);
    LinePost(s.ker.cq, s.ker.ops, s.eng.pending, i, res);
    assert line[|s.ker.cq| + i] == SlotOf(s.ker.ops[i].work);
    RemovesMoved(line, |s.ker.cq|, |s.ker.cq| + i, CqSlot(Cqe(s.ker.ops[i].work, res)), s.eng.seg.start);
    assert s.ker.ops[i].work.Remove? ==> s.ker.ops[i].work.name < s.eng.seg.start by {
      RemoveNamed(line, |s.ker.cq| + i, s.eng.seg.start);
    }
  }

  lemma RemoveNamed(line: seq<Slot>, i: nat, bound: nat)
    requires RemovesBelow(line, bound) && i < |line|
    ensures line[i].work.Remove? ==> line[i].work.name < bound
  {
  }

  /** What reaping does to the engine's queue, its segment and the kernel. */
  lemma ReapShape(s: State)
    requires CanReap(s)
    ensures s.ker.cq != []
    ensures var t, v := ReapHead(s), Complete(s.ker.cq[0].work, s.ker.cq[0].res);
            && t.eng.seg == s.eng.seg && t.ker == s.ker.(cq := s.ker.cq[1..])
            && t.eng.pending == if v.Retry? then [v.work] + s.eng.pending else s.eng.pending
  {
    hide SentAll, Sent, RaiseAll, Raise, Remaining, Freed, IsSettled;
  }

  lemma RouteReap(s: State)
    requires RouteInv(s) && CanReap(s)
    ensures RouteInv(ReapHead(s))
  {
    hide LineOf, Requeued, ReapHead, CanReap, RemovesBelow;
    ReapShape(s);
    var c := s.ker.cq[0];
    var line := Line(s);
    if Complete(c.work, c.res).Retry? {
      LineRetry(s.ker.cq, s.ker.ops, s.eng.pending);
      assert line[0] == CqSlot(c);
      RemovesRequeued(line, |s.ker.cq| - 1 + |s.ker.ops|, s.eng.seg.start);
    } else {
      LineReap(s.ker.cq, s.ker.ops, s.eng.pending);
      RemovesTail(line, s.eng.seg.start);
    }
  }

  lemma RemovesTail(line: seq<Slot>, bound: nat)
    requires RemovesBelow(line, bound) && line != []
    ensures RemovesBelow(line[1..], bound)
  {
  }

  lemma RouteRotate(s: State)
    requires RouteInv(s) && CanFinishRotate(s)
    ensures RouteInv(Rotate(s))
  {
    hide LineOf, SentAll, RaiseAll, Freed;
  }

  lemma RouteStep(s: State, step: Step)
    requires RouteInv(s) && Enabled(s, step)
    ensures RouteInv(Next(s, step))
  {
    hide LineOf, Landing;
    match step
    case Take(reqs) => RouteTake(s, reqs);
    case Post(_) =>
    case Receive => RouteReceive(s);
    case ArmFsync =>
      if FsyncPlanner.ShouldFsync(s.eng.plan) {
        LineAppend(s.ker.cq, s.ker.ops, s.eng.pending, Fsync(s.eng.last));
      } else {
        assert s.eng.pending + [] == s.eng.pending;
      }
    case Submit => LineSubmit(s.ker.cq, s.ker.ops, s.eng.pending, s.eng.seg.ino);
    case KernelWrite(i, res) => RoutePost(s, DoWrite(s.ker, i, res), i, res);
    case KernelFsync =>
      assert Without(s.ker.ops, 0) == s.ker.ops[1..];
      RoutePost(s, DoFsync(s.ker), 0, 0);
    case FailFsync(res) =>
      assert Without(s.ker.ops, 0) == s.ker.ops[1..];
      RoutePost(s, FsyncFailed(s.ker, res), 0, res);
    case KernelRemove(i, gone) => RoutePost(s, DoRemove(s.ker, i, gone), i, if gone then 0 else -2);
    case ReapCqe => RouteReap(s);
    case FinishRotate => RouteRotate(s);
  }

  lemma RouteTake(s: State, reqs: seq<Req>)
    requires RouteInv(s) && CanTake(s, reqs)
    ensures RouteInv(TakeBatch(s, reqs))
  {
    hide TakenBatch, ApplyRequests, LineOf;
  }
}
