/**
 The active segment through whole runs: what it holds, what is durable, how much could be lost, and that
 no fsync is forgotten. `IoLine`, `LossWindow` and `FsyncDuty` prove each edit of the line; here every
 step of the pipeline is shown to be such an edit.
 */
module Storage {
  import opened Types
  import opened WalFormat
  import opened Recovery
  import opened Stage2
  import opened Acker
  import opened IoWork
  import opened IoLine
  import opened LossWindow
  import opened FsyncDuty
  import opened FsyncPlanner
  import opened WalCore
  import opened Pipeline
  import opened LineSteps
  import opened Routing
  import opened Batches

  /** A file with nothing outstanding: complete, and durable. */
  predicate Whole(f: File) { f.data == f.want && f.synced == f.want }

  ghost predicate FilesOk(s: State) {
    && s.eng.seg.ino < |s.ker.files|
    && s.eng.seg.offset == |s.ker.files[s.eng.seg.ino].want|
    && forall i :: 0 <= i < |s.ker.files| && i != s.eng.seg.ino ==> Whole(s.ker.files[i])
  }

  function Active(s: State): File
    requires s.eng.seg.ino < |s.ker.files|
  {
    s.ker.files[s.eng.seg.ino]
  }

  ghost predicate ResultsOk(cq: seq<Cqe>) {
    forall i :: 0 <= i < |cq| ==> ResultOk(cq[i])
  }

  ghost predicate ResultOk(c: Cqe) {
    c.work.Write? ==> c.work.done < |c.work.batch.out| && WriteResult(c.work, c.res)
  }

  ghost predicate PlanOk(s: State)
    requires s.eng.seg.ino < |s.ker.files|
  {
    && s.eng.plan.cadence == CadenceOf(s.eng.mode)
    && WindowInv(Line(s), Active(s), s.eng.plan.dirty)
    && (s.eng.mode == Sync ==> DutyInv(Line(s), s.eng.plan.dirty, s.eng.plan.flushing, s.eng.awaiting != []))
  }

  ghost predicate IoInv(s: State) {
    && FilesOk(s)
    && ResultsOk(s.ker.cq)
    && LineInv(Line(s), |s.ker.cq|, Active(s))
    && PlanOk(s)
  }

  /** The invariant in terms of the parts it depends on. */
  ghost predicate Good(line: seq<Slot>, nCq: nat, f: File, mode: Mode, dirty: nat, flushing: bool, owed: bool) {
    && LineInv(line, nCq, f)
    && WindowInv(line, f, dirty)
    && (mode == Sync ==> DutyInv(line, dirty, flushing, owed))
  }

  // ---- Quiet lines ----

  lemma QuietGood(f: File, mode: Mode, dirty: nat)
    requires Whole(f)
    ensures Good([], 0, f, mode, dirty, false, false)
  {
    assert forall p: nat :: p < |f.want| ==> SyncedAt(f, p) && LandedAt(f, p);
    assert ExposedSet([], f) == {};
  }

  lemma {:induction false} GoodRemovals(line: seq<Slot>, nCq: nat, f: File, mode: Mode, dirty: nat, flushing: bool,
                                        owed: bool, more: seq<Slot>)
    requires Good(line, nCq, f, mode, dirty, flushing, owed)
    requires forall i :: 0 <= i < |more| ==> more[i].work.Remove?
    ensures Good(line + more, nCq, f, mode, dirty, flushing, owed)
  {
    hide LineInv, WindowInv, DutyInv;
    if more == [] {
      assert line + more == line;
    } else {
      var n := |more| - 1;
      GoodRemovals(line, nCq, f, mode, dirty, flushing, owed, more[..n]);
      var line' := line + more[..n];
      AppendOther(line', nCq, f, more[n]);
      WindowRemove(line', f, dirty, more[n]);
      if mode == Sync { DutyAppend(line', dirty, flushing, owed, more[n], dirty); }
      assert line' + [more[n]] == line + more;
    }
  }

  // ---- Steps ----

  lemma IoInit(s: State)
    requires Init(s)
    ensures IoInv(s)
  {
    hide LineInv, WindowInv, DutyInv;
    assert Settled(s.ker.files[s.eng.seg.ino]);
    assert Line(s) == [];
    QuietGood(Active(s), s.eng.mode, 0);
    assert forall i :: 0 <= i < |s.ker.files| ==> Settled(s.ker.files[i]);
  }

  lemma {:induction false} LogNonempty(recs: seq<Rec>)
    requires recs != []
    ensures EncodeLog(recs) != []
  {
    hide Encode;
  }

  lemma IoReceiveWrite(s: State)
    requires IoInv(s) && BatchInv(s) && s.chan != [] && s.chan[0].WriteMsg? && ItemsWellFormed(s.chan[0].batch.items)
    ensures IoInv(ReceiveWrite(s))
  {
    hide BatchInv, LineOf, LineInv, WindowInv, DutyInv, RecsOf, ResultsOk;
    AssertionsHold(s);
    var t := ReceiveWrite(s);
    var b := Encoded(s.chan[0].batch);
    var recs := RecsOf(b.lo, Bodies(b.items));
    LogNonempty(recs);
    var x := SlotOf(Write(b, s.eng.seg.offset, 0));
    var line, f := Line(s), Active(s);
    LineAppend(s.ker.cq, s.ker.ops, s.eng.pending, x.work);
    assert Line(t) == line + [x];
    AppendWrite(line, |s.ker.cq|, f, x, recs);
    WindowWrite(line, |s.ker.cq|, f, s.eng.plan.dirty, x, recs);
    if s.eng.mode == Sync {
      DutyAppend(line, s.eng.plan.dirty, s.eng.plan.flushing, s.eng.awaiting != [], x, t.eng.plan.dirty);
    }
  }

  lemma IoReceive(s: State)
    requires IoInv(s) && BatchInv(s) && CanReceive(s)
    ensures IoInv(ReceiveMsg(s))
  {
    hide BatchInv, LineOf, LineInv, WindowInv, DutyInv, ReceiveWrite, Names.Sorted, ResultsOk;
    var t := ReceiveMsg(s);
    match s.chan[0]
    case WriteMsg(_) => IoReceiveWrite(s);
    case RotateMsg(_) =>
    case RetireMsg(_) =>
      var more := Line(t)[|Line(s)|..];
      assert Line(t) == Line(s) + more by { assert forall i :: 0 <= i < |Line(s)| ==> Line(t)[i] == Line(s)[i]; }
      GoodRemovals(Line(s), |s.ker.cq|, Active(s), s.eng.mode, s.eng.plan.dirty, s.eng.plan.flushing,
        s.eng.awaiting != [], more);
  }

  lemma IoArm(s: State)
    requires IoInv(s)
    ensures IoInv(s.(eng := Arm(s.eng)))
  {
    hide LineOf, LineInv, WindowInv, DutyInv, ResultsOk;
    var t := s.(eng := Arm(s.eng));
    if ShouldFsync(s.eng.plan) {
      var w := Fsync(s.eng.last);
      LineAppend(s.ker.cq, s.ker.ops, s.eng.pending, w);
      assert Line(t) == Line(s) + [SlotOf(w)];
      AppendOther(Line(s), |s.ker.cq|, Active(s), SlotOf(w));
      WindowArm(Line(s), Active(s), SlotOf(w));
      if s.eng.mode == Sync { DutyArm(Line(s), s.eng.plan.dirty, s.eng.awaiting != [], SlotOf(w)); }
    } else {
      assert s.eng.pending + [] == s.eng.pending;
    }
  }

  lemma IoWrite(s: State, i: nat, res: int)
    requires IoInv(s) && RouteInv(s) && CanWrite(s.ker, i, res)
    ensures IoInv(s.(ker := DoWrite(s.ker, i, res)))
  {
    hide LineOf, LineInv, WindowInv, DutyInv, Moved, WriteAt, Without, MayStart, RemovesBelow, SegmentOpen;
    var t := s.(ker := DoWrite(s.ker, i, res));
    var line, f, c := Line(s), Active(s), |s.ker.cq|;
    var w := s.ker.ops[i].work;
    assert line[c + i] == SlotOf(w);
    LinePost(s.ker.cq, s.ker.ops, s.eng.pending, i, res);
    var x := CqSlot(Cqe(w, res));
    assert x == Slot(w, w.done + Wrote(res));
    WriteUnfinished(line, c, f, c + i);
    PostWrite(line, c, f, c + i, Wrote(res));
    WindowPost(line, c, f, Landing(f, w, Wrote(res)), s.eng.plan.dirty, c + i, x);
    if s.eng.mode == Sync { DutyMoved(line, s.eng.plan.dirty, s.eng.plan.flushing, s.eng.awaiting != [], c, c + i, x); }
  }

  lemma WriteUnfinished(line: seq<Slot>, nCq: nat, f: File, i: nat)
    requires LineInv(line, nCq, f) && i < |line| && line[i].work.Write?
    ensures line[i].work.done < |line[i].work.batch.out|
    ensures line[i].work.done <= line[i].landed <= |line[i].work.batch.out|
  {
    assert SlotOk(line[i], f);
  }

  lemma IoFsync(s: State)
    requires IoInv(s) && RouteInv(s) && CanFsync(s.ker)
    ensures IoInv(s.(ker := DoFsync(s.ker)))
  {
    hide LineOf, LineInv, WindowInv, DutyInv, Moved, RemovesBelow, SegmentOpen;
    var t := s.(ker := DoFsync(s.ker));
    var line, f, c := Line(s), Active(s), |s.ker.cq|;
    var w := s.ker.ops[0].work;
    assert line[c] == SlotOf(w) == CqSlot(Cqe(w, 0));
    assert Line(t) == line by {
      LinePost(s.ker.cq, s.ker.ops, s.eng.pending, 0, 0);
      assert Without(s.ker.ops, 0) == s.ker.ops[1..];
      MovedNowhere(line, c);
    }
    PostFlush(line, c, f);
    WindowFlush(line, c, f, s.eng.plan.dirty);
  }

  /** A failed fsync is marked in its place; the file is as it was. */
  lemma IoFsyncFails(s: State, res: int)
    requires IoInv(s) && CanFsync(s.ker) && res < 0
    ensures IoInv(s.(ker := FsyncFailed(s.ker, res)))
  {
    hide LineOf, LineInv, WindowInv, DutyInv, Moved;
    var t := s.(ker := FsyncFailed(s.ker, res));
    var line, f, c := Line(s), Active(s), |s.ker.cq|;
    var x := CqSlot(Cqe(s.ker.ops[0].work, res));
    assert line[c].work == x.work;
    LinePost(s.ker.cq, s.ker.ops, s.eng.pending, 0, res);
    assert Without(s.ker.ops, 0) == s.ker.ops[1..];
    MovedInPlace(line, c, x);
    PostFailed(line, c, f, x);
    WindowMarked(line, f, s.eng.plan.dirty, c, x);
    if s.eng.mode == Sync { DutyMarked(line, s.eng.plan.dirty, s.eng.plan.flushing, s.eng.awaiting != [], c, x); }
  }

  lemma MovedNowhere(line: seq<Slot>, c: nat)
    requires c < |line|
    ensures Moved(line, c, c, line[c]) == line
  {
  }

  lemma MovedInPlace(line: seq<Slot>, c: nat, x: Slot)
    requires c < |line|
    ensures Moved(line, c, c, x) == line[c := x]
  {
  }

  lemma IoRemove(s: State, i: nat, gone: bool)
    requires IoInv(s) && CanRemove(s.ker, i)
    ensures IoInv(s.(ker := DoRemove(s.ker, i, gone)))
  {
    hide LineOf, LineInv, WindowInv, DutyInv, Moved, Without, MayStart;
    var t := s.(ker := DoRemove(s.ker, i, gone));
    var line, f, c := Line(s), Active(s), |s.ker.cq|;
    var w := s.ker.ops[i].work;
    var res := if gone then 0 else -2;
    assert line[c + i] == SlotOf(w) == CqSlot(Cqe(w, res));
    LinePost(s.ker.cq, s.ker.ops, s.eng.pending, i, res);
    PostOther(line, c, f, c + i);
    WindowPost(line, c, f, f, s.eng.plan.dirty, c + i, line[c + i]);
    if s.eng.mode == Sync {
      DutyMoved(line, s.eng.plan.dirty, s.eng.plan.flushing, s.eng.awaiting != [], c, c + i, line[c + i]);
    }
  }

  lemma IoReap(s: State)
    requires IoInv(s) && CanReap(s)
    ensures IoInv(ReapHead(s))
  {
    hide LineOf, LineInv, WindowInv, DutyInv, Requeued, Sent, SentAll, Raise, RaiseAll, Remaining, IsSettled;
    var t := ReapHead(s);
    var line, f, n := Line(s), Active(s), |s.ker.cq|;
    var c := s.ker.cq[0];
    assert line[0] == CqSlot(c);
    assert ResultOk(c);
    assert forall i :: 0 <= i < n - 1 ==> t.ker.cq[i] == s.ker.cq[i + 1];
    match Complete(c.work, c.res)
    case Retry(w) => IoRetry(s);
    case Flushed =>
      LineReap(s.ker.cq, s.ker.ops, s.eng.pending);
      TakeHead(line, n, f);
      WindowTake(line, n, f, s.eng.plan.dirty);
      if s.eng.mode == Sync { DutyFlushed(line, s.eng.plan.dirty, s.eng.plan.flushing, s.eng.awaiting != []); }
    case Finished(_) =>
      if c.work.Write? { CompleteResumes(c.work, c.res); }
      LineReap(s.ker.cq, s.ker.ops, s.eng.pending);
      TakeHead(line, n, f);
      WindowTake(line, n, f, s.eng.plan.dirty);
      if s.eng.mode == Sync {
        DutyWritten(line, s.eng.plan.dirty, s.eng.plan.flushing, s.eng.awaiting != [], t.eng.awaiting != []);
      }
  }

  lemma IoRetry(s: State)
    requires IoInv(s) && CanReap(s) && Complete(s.ker.cq[0].work, s.ker.cq[0].res).Retry?
    ensures IoInv(ReapHead(s))
  {
    hide LineOf, LineInv, WindowInv, DutyInv, Requeued, ReapHead, CanReap;
    RetryState(s);
    var t := ReapHead(s);
    var line, f, n := Line(s), Active(s), |s.ker.cq|;
    var c := s.ker.cq[0];
    assert line[0] == CqSlot(c);
    assert ResultOk(c);
    CompleteResumes(c.work, c.res);
    LineRetry(s.ker.cq, s.ker.ops, s.eng.pending);
    var q := n - 1 + |s.ker.ops|;
    assert Line(t) == Requeued(line, q);
    RequeueHead(line, n, f, q);
    WindowRequeue(line, n, f, s.eng.plan.dirty, q);
    if s.eng.mode == Sync {
      DutyRequeued(line, s.eng.plan.dirty, s.eng.plan.flushing, s.eng.awaiting != [], q, t.eng.plan.dirty);
    }
    assert ResultsOk(t.ker.cq) by { assert forall i :: 0 <= i < n - 1 ==> t.ker.cq[i] == s.ker.cq[i + 1]; }
  }

  lemma RetryState(s: State)
    requires CanReap(s) && Complete(s.ker.cq[0].work, s.ker.cq[0].res).Retry?
    ensures ReapHead(s).eng == Retried(s.eng, Complete(s.ker.cq[0].work, s.ker.cq[0].res).work)
    ensures ReapHead(s).ker == s.ker.(cq := s.ker.cq[1..]) && (FilesOk(s) ==> FilesOk(ReapHead(s)))
    ensures s.ker.cq != [] && s.ker.cq[0].work.Write?
  {
    hide Raise, RaiseAll, Sent, SentAll;
  }

  lemma IoRotate(s: State)
    requires IoInv(s) && RouteInv(s) && CanFinishRotate(s)
    ensures IoInv(Rotate(s))
  {
    hide LineOf, LineInv, WindowInv, DutyInv, SentAll, RaiseAll;
    var t := Rotate(s);
    assert Line(s) == [];
    QuietFileComplete(Line(s), 0, Active(s));
    assert forall i :: 0 <= i < |t.ker.files| ==> Whole(t.ker.files[i]);
    assert Line(t) == [];
    QuietGood(Active(t), t.eng.mode, t.eng.plan.dirty);
  }

  lemma IoStep(s: State, step: Step)
    requires IoInv(s) && RouteInv(s) && BatchInv(s) && Enabled(s, step)
    ensures IoInv(Next(s, step))
  {
    hide BatchInv, RouteInv, LineOf, ReceiveMsg, DoWrite, DoFsync, DoRemove, ReapHead, Rotate, TakenBatch,
         ApplyRequests, LineInv, WindowInv, DutyInv, Sent;
    match step
    case Take(reqs) =>
    case Post(_) =>
    case Receive => IoReceive(s);
    case ArmFsync => IoArm(s);
    case Submit => LineSubmit(s.ker.cq, s.ker.ops, s.eng.pending, s.eng.seg.ino);
    case KernelWrite(i, res) => IoWrite(s, i, res);
    case KernelFsync => IoFsync(s);
    case FailFsync(res) => IoFsyncFails(s, res);
    case KernelRemove(i, gone) => IoRemove(s, i, gone);
    case ReapCqe => IoReap(s);
    case FinishRotate => IoRotate(s);
  }
}
