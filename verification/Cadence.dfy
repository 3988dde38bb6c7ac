/**
 When fsyncs are queued, over all runs and by mode (crates/server/src/stage3/fsync_planner.rs): never in NoFsync
 mode, at 1 MiB of dirty bytes in Async mode, and in Sync mode whenever something is dirty and no fsync is
 pending or in flight. And what `dirty_bytes` counts.
 */
module Cadence {
  import opened Types
  import opened Stage2
  import opened Acker
  import opened IoWork
  import opened FsyncPlanner
  import opened IoLine
  import opened WalCore
  import opened Pipeline
  import opened Routing
  import opened Batches
  import opened Storage
  import opened Durability
  import opened Replies
  import opened Outstanding
  import opened Content
  import opened Runs
  import opened Theorems

  // ---- What a step does to `pending` ----

  ghost predicate Dry(ws: seq<Work>) { forall i :: 0 <= i < |ws| ==> !ws[i].Fsync? }

  /** How many fsyncs are queued. */
  function Flushes(ws: seq<Work>): nat {
    if ws == [] then 0 else (if ws[|ws| - 1].Fsync? then 1 else 0) + Flushes(ws[..|ws| - 1])
  }

  lemma {:induction false} FlushesAppend(a: seq<Work>, b: seq<Work>)
    ensures Flushes(a + b) == Flushes(a) + Flushes(b)
  {
    if b == [] {
      assert a + b == a;
    } else {
      FlushesAppend(a, b[..|b| - 1]);
      assert (a + b)[..|a + b| - 1] == a + b[..|b| - 1];
    }
  }

  lemma {:induction false} NoFlushes(ws: seq<Work>)
    requires Dry(ws)
    ensures Flushes(ws) == 0
  {
    if ws != [] { NoFlushes(ws[..|ws| - 1]); }
  }

  /** What may be found in `pending` after a step other than evaluating the planner. */
  ghost predicate Refilled(before: seq<Work>, after: seq<Work>) {
    exists front, cut: nat, back ::
      Dry(front) && Dry(back) && cut <= |before| && after == front + before[cut..] + back
  }

  lemma RefilledBy(before: seq<Work>, front: seq<Work>, cut: nat, back: seq<Work>)
    requires Dry(front) && Dry(back) && cut <= |before|
    ensures Refilled(before, front + before[cut..] + back)
  {
  }

  lemma RefilledFlushes(before: seq<Work>, after: seq<Work>)
    requires Refilled(before, after)
    ensures Flushes(after) <= Flushes(before)
  {
    var front, cut: nat, back :| Dry(front) && Dry(back) && cut <= |before| && after == front + before[cut..] + back;
    RefillFlushes(before, front, cut, back);
  }

  lemma RefillFlushes(before: seq<Work>, front: seq<Work>, cut: nat, back: seq<Work>)
    requires Dry(front) && Dry(back) && cut <= |before|
    ensures Flushes(front + before[cut..] + back) <= Flushes(before)
  {
    hide Flushes, Dry;
    FlushesAppend(front + before[cut..], back);
    FlushesAppend(front, before[cut..]);
    FlushesAppend(before[..cut], before[cut..]);
    assert before == before[..cut] + before[cut..];
    NoFlushes(front);
    NoFlushes(back);
  }

  lemma RefilledDry(before: seq<Work>, after: seq<Work>)
    requires Refilled(before, after) && Dry(before)
    ensures Dry(after)
  {
  }

  lemma PendingRefilled(s: State, step: Step)
    requires Enabled(s, step) && !step.ArmFsync?
    ensures Refilled(s.eng.pending, Next(s, step).eng.pending)
  {
    hide TakeBatch, ReapHead, CanReap, Rotate, CanFinishRotate, ReceiveMsg, CanReceive, Refilled, DoWrite, DoFsync,
         DoRemove, CanWrite, CanFsync, CanRemove, CanTake;
    match step
    case Take(reqs) => TakePending(s, reqs); RefilledSelf(s.eng.pending);
    case Receive => ReceiveRefills(s);
    case Submit => RefilledFront(s.eng.pending);
    case ReapCqe => ReapRefills(s);
    case FinishRotate => RotatePending(s); RefilledSelf(s.eng.pending);
    case _ => RefilledSelf(s.eng.pending);
  }

  lemma RefilledSelf(before: seq<Work>)
    ensures Refilled(before, before)
  {
    assert before == [] + before[0..] + [];
    RefilledBy(before, [], 0, []);
  }

  lemma RefilledFront(before: seq<Work>)
    requires before != []
    ensures Refilled(before, before[1..])
  {
    assert before[1..] == [] + before[1..] + [];
    RefilledBy(before, [], 1, []);
  }

  lemma TakePending(s: State, reqs: seq<Req>)
    requires CanTake(s, reqs)
    ensures TakeBatch(s, reqs).eng == s.eng
  {
    hide TakenBatch, ApplyRequests, Sent, Exec;
  }

  lemma ReceiveRefills(s: State)
    requires CanReceive(s)
    ensures Refilled(s.eng.pending, ReceiveMsg(s).eng.pending)
  {
    hide Refilled;
    var a, b := s.eng.pending, ReceiveMsg(s).eng.pending;
    var more := ReceiveAppends(s);
    assert b == [] + a[0..] + more;
    RefilledBy(a, [], 0, more);
  }

  lemma ReceiveAppends(s: State) returns (more: seq<Work>)
    requires CanReceive(s)
    ensures Dry(more) && ReceiveMsg(s).eng.pending == s.eng.pending + more
  {
    hide Encoded, Grown, Names.Sorted, RecsOf;
    match s.chan[0]
    case WriteMsg(b) => more := [Write(Encoded(b), s.eng.seg.offset, 0)];
    case RotateMsg(_) => more := [];
    case RetireMsg(b) => more := Removals(Below(s.ker.dir.Keys, b));
  }

  lemma ReapRefills(s: State)
    requires CanReap(s)
    ensures Refilled(s.eng.pending, ReapHead(s).eng.pending)
  {
    hide ReapHead, Refilled;
    var a, b := s.eng.pending, ReapHead(s).eng.pending;
    var v := Complete(s.ker.cq[0].work, s.ker.cq[0].res);
    ReapShape(s);
    var front := if v.Retry? then [v.work] else [];
    assert b == front + a[0..] + [];
    RefilledBy(a, front, 0, []);
  }

  lemma RotatePending(s: State)
    requires CanFinishRotate(s)
    ensures Rotate(s).eng.pending == s.eng.pending
  {
    hide SentAll, RaiseAll, Freed;
  }

  // ---- Exactly when a step queues an fsync ----

  /** The cadence of each mode, as its documentation states it. */
  ghost predicate CadenceAsks(s: State) {
    match s.eng.mode
    case NoFsync => false
    case Async => s.eng.plan.dirty >= 0x10_0000
    case Sync => s.eng.plan.dirty > 0 && forall i :: 0 <= i < |Line(s)| ==> !Line(s)[i].work.Fsync?
  }

  /** Evaluating the planner queues an fsync exactly if the cadence asks for one; no other step ever does. */
  lemma FsyncExactly(s: State, step: Step)
    requires Reachable(s) && Enabled(s, step)
    ensures var t := Next(s, step);
            && (Flushes(t.eng.pending) > Flushes(s.eng.pending) <==> step.ArmFsync? && CadenceAsks(s))
            && (step.ArmFsync? ==>
                 t.eng.pending == s.eng.pending + if CadenceAsks(s) then [Fsync(s.eng.last)] else [])
  {
    hide Reachable, Enabled, Next, Refilled, Flushes, CadenceAsks;
    if step.ArmFsync? {
      ArmExactly(s);
      FlushesAppend(s.eng.pending, [Fsync(s.eng.last)]);
      assert s.eng.pending + [] == s.eng.pending;
      OneFsync(s.eng.last);
      ArmNext(s);
    } else {
      PendingRefilled(s, step);
      RefilledFlushes(s.eng.pending, Next(s, step).eng.pending);
    }
  }

  lemma OneFsync(target: nat)
    ensures Flushes([Fsync(target)]) == 1
  {
    assert [Fsync(target)][..0] == [];
  }

  lemma ArmNext(s: State)
    requires Enabled(s, ArmFsync)
    ensures Next(s, ArmFsync).eng == Arm(s.eng)
  {
  }

  lemma ArmExactly(s: State)
    requires Reachable(s)
    ensures Arm(s.eng).pending == s.eng.pending + if CadenceAsks(s) then [Fsync(s.eng.last)] else []
  {
    hide Reachable, LineOf;
    CadenceKept(s);
    var p := s.eng.plan;
    assert p == Plan(CadenceOf(s.eng.mode), p.dirty, p.flushing);
    DueByMode(s.eng.mode, p.dirty, p.flushing);
    if s.eng.mode == Sync { FsyncObligations(s); }
  }

  // ---- NoFsync ----

  ghost predicate DryState(s: State) {
    && Dry(s.eng.pending)
    && (forall i :: 0 <= i < |s.ker.ops| ==> !s.ker.ops[i].work.Fsync?)
    && (forall i :: 0 <= i < |s.ker.cq| ==> !s.ker.cq[i].work.Fsync?)
  }

  lemma DryStep(s: State, step: Step)
    requires Reachable(s) && Enabled(s, step) && s.eng.mode == NoFsync && DryState(s)
    ensures DryState(Next(s, step))
  {
    hide Reachable, Refilled, Enabled, Next;
    var t := Next(s, step);
    if step.ArmFsync? {
      ArmExactly(s);
      ArmNext(s);
    } else {
      PendingRefilled(s, step);
      RefilledDry(s.eng.pending, t.eng.pending);
    }
    KernelDry(s, step);
  }

  lemma KernelDry(s: State, step: Step)
    requires Enabled(s, step) && DryState(s)
    ensures var t := Next(s, step);
            && (forall i :: 0 <= i < |t.ker.ops| ==> !t.ker.ops[i].work.Fsync?)
            && (forall i :: 0 <= i < |t.ker.cq| ==> !t.ker.cq[i].work.Fsync?)
  {
    hide TakenBatch, ApplyRequests, Sent, ReapHead, CanReap, Rotate, CanFinishRotate, Encoded, Grown, Names.Sorted,
         CanTake, Exec, RecsOf, Landing, Arm;
    match step
    case ReapCqe => ReapShape(s);
    case FinishRotate => RotateRing(s);
    case _ =>
  }

  lemma RotateRing(s: State)
    requires CanFinishRotate(s)
    ensures Rotate(s).ker.ops == s.ker.ops && Rotate(s).ker.cq == s.ker.cq
  {
    hide SentAll, RaiseAll, Freed;
  }

  lemma ModeStays(s: State, step: Step)
    requires Enabled(s, step)
    ensures Next(s, step).eng.mode == s.eng.mode
  {
    hide TakenBatch, ApplyRequests, Sent, Encoded, Grown, Names.Sorted, CanTake, Exec, RecsOf, Landing, SentAll,
         RaiseAll, Raise, Freed, Remaining, IsSettled, LineOf;
  }

  lemma {:induction false} DryAlways(states: seq<State>, steps: seq<Step>, i: nat)
    requires IsRun(states, steps) && i <= |steps| && states[i].eng.mode == NoFsync
    ensures DryState(states[i])
  {
    hide Init, Enabled, Next, DryState;
    if i == 0 {
      DryInit(states[0]);
    } else {
      ModeStays(states[i - 1], steps[i - 1]);
      DryAlways(states, steps, i - 1);
      PrefixReachable(states, steps, i - 1);
      DryStep(states[i - 1], steps[i - 1]);
    }
  }

  lemma DryInit(s: State)
    requires Init(s)
    ensures DryState(s)
  {
  }

  lemma PrefixReachable(states: seq<State>, steps: seq<Step>, i: nat)
    requires IsRun(states, steps) && i <= |steps|
    ensures Reachable(states[i])
  {
    hide Init, Enabled, Next;
    var states', steps' := states[..i + 1], steps[..i];
    forall j | 0 <= j < i ensures Enabled(states'[j], steps'[j]) && states'[j + 1] == Next(states'[j], steps'[j]) {
      assert states'[j] == states[j] && states'[j + 1] == states[j + 1] && steps'[j] == steps[j];
    }
    assert IsRun(states', steps') && states'[|steps'|] == states[i];
  }

  /** NoFsync mode, the default: no fsync is ever pending or in flight. */
  lemma NoFsyncNever(s: State)
    requires Reachable(s) && s.eng.mode == NoFsync
    ensures forall i :: 0 <= i < |Line(s)| ==> !Line(s)[i].work.Fsync?
  {
    hide Init, Enabled, Next, LineOf;
    var states, steps :| IsRun(states, steps) && s == states[|steps|];
    DryAlways(states, steps, |steps|);
  }

  // ---- What `dirty_bytes` counts ----

  /**
   `dirty_bytes` grows by the bytes a batch adds to the plan of the segment, and by what is left of a write
   that has to be repeated; an fsync queued takes it to zero; nothing else changes it, rotation included.
   */
  lemma DirtyExactly(s: State, step: Step)
    requires Reachable(s) && Enabled(s, step)
    ensures var t, d := Next(s, step), s.eng.plan.dirty;
            match step
            case Receive =>
              && s.eng.seg.ino < |s.ker.files| && t.eng.seg.ino < |t.ker.files|
              && t.eng.plan.dirty - d == |Active(t).want| - |Active(s).want|
            case ReapCqe =>
              && s.ker.cq != []
              && var w, res := s.ker.cq[0].work, s.ker.cq[0].res;
              && t.eng.plan.dirty == d + if w.Write? then |w.batch.out| - Reached(w, res) else 0
            case ArmFsync => t.eng.plan.dirty == if CadenceAsks(s) then 0 else d
            case _ => t.eng.plan.dirty == d
  {
    hide Reachable, LineOf, CadenceAsks;
    match step
    case Receive => SegmentThere(s); DirtyReceive(s);
    case ReapCqe => DirtyReap(s);
    case ArmFsync => ArmExactly(s); DirtyArm(s);
    case FinishRotate => DirtyRotate(s);
    case _ => DirtyKept(s, step);
  }

  lemma SegmentThere(s: State)
    requires Reachable(s)
    ensures IoInv(s) && s.eng.seg.ino < |s.ker.files|
  {
    hide Reachable, Inv, RouteInv, BatchInv, DurableInv, ReplyInv, OutInv, Buffers.BufferInv, ContentInv, LineInv,
         PlanOk, LineOf;
    ReachableInv(s);
    InvParts(s);
  }

  lemma DirtyReceive(s: State)
    requires CanReceive(s) && s.eng.seg.ino < |s.ker.files|
    ensures var t := ReceiveMsg(s);
            && t.eng.seg.ino == s.eng.seg.ino < |t.ker.files|
            && t.eng.plan.dirty - s.eng.plan.dirty == |Active(t).want| - |Active(s).want|
  {
    hide Encoded, RecsOf, Names.Sorted;
  }

  lemma DirtyReap(s: State)
    requires Reachable(s) && CanReap(s)
    ensures var w, res := s.ker.cq[0].work, s.ker.cq[0].res;
            ReapHead(s).eng.plan.dirty == s.eng.plan.dirty + if w.Write? then |w.batch.out| - Reached(w, res) else 0
  {
    hide Reachable, LineOf, LineInv, PlanOk, Sent, SentAll, Raise, RaiseAll, Remaining, IsSettled, Freed;
    SegmentThere(s);
    var c := s.ker.cq[0];
    assert ResultOk(c);
    CompleteExactly(c.work, c.res);
    if c.work.Write? { CompleteResumes(c.work, c.res); }
  }

  lemma DirtyArm(s: State)
    requires Arm(s.eng).pending == s.eng.pending + if CadenceAsks(s) then [Fsync(s.eng.last)] else []
    ensures Arm(s.eng).plan.dirty == if CadenceAsks(s) then 0 else s.eng.plan.dirty
  {
    hide CadenceAsks, ShouldFsync;
    assert |Arm(s.eng).pending| == |s.eng.pending| + if ShouldFsync(s.eng.plan) then 1 else 0;
  }

  lemma DirtyRotate(s: State)
    requires CanFinishRotate(s)
    ensures Rotate(s).eng.plan.dirty == s.eng.plan.dirty
  {
    hide SentAll, RaiseAll, Freed;
  }

  lemma DirtyKept(s: State, step: Step)
    requires Enabled(s, step)
    requires !step.Receive? && !step.ReapCqe? && !step.ArmFsync? && !step.FinishRotate?
    ensures Next(s, step).eng.plan == s.eng.plan
  {
    hide TakenBatch, ApplyRequests, Sent, CanTake, Exec, RecsOf, Landing;
  }
}
