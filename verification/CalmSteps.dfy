/**
 Calm runs: no write is short or retried, and no rotation goes back to a lower name. In such runs what an
 fsync makes durable is a gap-free prefix of the segment. Orderly runs: no rotation goes back, and no
 segment is unlinked.
 */
module CalmSteps {
  import opened Types
  import opened Stage2
  import opened Acker
  import opened IoWork
  import opened IoLine
  import opened SmoothRun
  import opened WalCore
  import opened Pipeline
  import opened LineSteps
  import opened Routing
  import opened Batches
  import opened Storage

  /** No rotation goes back to a lower name. */
  ghost predicate Forward(s: State, step: Step)
    requires Enabled(s, step)
  {
    step.FinishRotate? ==> s.eng.rotating.value >= s.eng.seg.start
  }

  /** No segment is unlinked either. */
  ghost predicate Orderly(s: State, step: Step)
    requires Enabled(s, step)
  {
    Forward(s, step) && (step.KernelRemove? ==> !step.gone)
  }

  /** Every write is carried out in full at once. */
  ghost predicate Calm(s: State, step: Step)
    requires Enabled(s, step)
  {
    && Forward(s, step)
    && (step.KernelWrite? ==>
         var w := s.ker.ops[step.i].work;
         step.res == |w.batch.out| - w.done)
  }

  // ---- Smoothness of the active segment ----

  ghost predicate SmoothState(s: State) {
    s.eng.seg.ino < |s.ker.files| && SmoothInv(Line(s), |s.ker.cq|, Active(s))
  }

  lemma SmoothQuiet(f: File)
    requires Whole(f)
    ensures SmoothInv([], 0, f)
  {
  }

  lemma {:induction false} SmoothRemovals(line: seq<Slot>, nCq: nat, f: File, more: seq<Slot>)
    requires SmoothInv(line, nCq, f) && forall i :: 0 <= i < |more| ==> !more[i].work.Write?
    ensures SmoothInv(line + more, nCq, f)
  {
    hide SmoothInv;
    if more == [] {
      assert line + more == line;
    } else {
      var n := |more| - 1;
      SmoothRemovals(line, nCq, f, more[..n]);
      SmoothAppend(line + more[..n], nCq, f, more[n]);
      assert line + more[..n] + [more[n]] == line + more;
    }
  }

  lemma SmoothReceive(s: State)
    requires IoInv(s) && BatchInv(s) && SmoothState(s) && CanReceive(s)
    ensures SmoothState(ReceiveMsg(s))
  {
    hide BatchInv, LineInv, PlanOk, ResultsOk, SmoothInv, LineOf, RecsOf, Names.Sorted;
    var t := ReceiveMsg(s);
    if s.chan[0].WriteMsg? {
      var x := SlotOf(Write(Encoded(s.chan[0].batch), s.eng.seg.offset, 0));
      LineAppend(s.ker.cq, s.ker.ops, s.eng.pending, x.work);
      SmoothWrite(Line(s), |s.ker.cq|, Active(s), x, RecsOf(s.chan[0].batch.lo, Bodies(s.chan[0].batch.items)));
    } else {
      var more := Line(t)[|Line(s)|..];
      assert Line(t) == Line(s) + more by { assert forall i :: 0 <= i < |Line(s)| ==> Line(t)[i] == Line(s)[i]; }
      SmoothRemovals(Line(s), |s.ker.cq|, Active(s), more);
    }
  }

  lemma WriteUnstarted(line: seq<Slot>, nCq: nat, f: File, i: nat)
    requires SmoothInv(line, nCq, f) && i < |line| && line[i].work.Write?
    ensures line[i].work.done == 0
  {
  }

  lemma SmoothKernelWrite(s: State, i: nat, res: int)
    requires IoInv(s) && RouteInv(s) && SmoothState(s) && CanWrite(s.ker, i, res)
    requires res == |s.ker.ops[i].work.batch.out| - s.ker.ops[i].work.done
    ensures SmoothState(s.(ker := DoWrite(s.ker, i, res)))
  {
    hide LineInv, PlanOk, ResultsOk, LineOf, Moved, WriteAt, Without, RemovesBelow, SegmentOpen, SmoothInv, MayStart,
         Landing;
    var line, c := Line(s), |s.ker.cq|;
    var w := s.ker.ops[i].work;
    assert line[c + i] == SlotOf(w);
    WriteUnfinished(line, c, Active(s), c + i);
    assert w.done == 0 by { WriteUnstarted(line, c, Active(s), c + i); }
    LinePost(s.ker.cq, s.ker.ops, s.eng.pending, i, res);
    assert CqSlot(Cqe(w, res)) == Slot(w, |w.batch.out|);
    NoFsyncAhead(s, i);
    SmoothPost(line, c, Active(s), c + i);
    assert DoWrite(s.ker, i, res).files[s.eng.seg.ino] == Landing(Active(s), w, |w.batch.out|);
  }

  lemma NoFsyncAhead(s: State, i: nat)
    requires i < |s.ker.ops| && MayStart(s.ker.ops, i)
    ensures forall j :: |s.ker.cq| <= j < |s.ker.cq| + i ==> !Line(s)[j].work.Fsync?
  {
    hide LineOf;
    forall j | |s.ker.cq| <= j < |s.ker.cq| + i ensures !Line(s)[j].work.Fsync? {
      assert Line(s)[j] == SlotOf(s.ker.ops[j - |s.ker.cq|].work);
    }
  }

  lemma SmoothKernelFsync(s: State)
    requires IoInv(s) && RouteInv(s) && SmoothState(s) && CanFsync(s.ker)
    ensures SmoothState(s.(ker := DoFsync(s.ker)))
  {
    hide LineInv, PlanOk, ResultsOk, LineOf, Moved, SmoothInv, RemovesBelow, SegmentOpen;
    var t := s.(ker := DoFsync(s.ker));
    var line, c := Line(s), |s.ker.cq|;
    var w := s.ker.ops[0].work;
    assert line[c] == SlotOf(w) == CqSlot(Cqe(w, 0));
    assert Line(t) == line by {
      LinePost(s.ker.cq, s.ker.ops, s.eng.pending, 0, 0);
      assert Without(s.ker.ops, 0) == s.ker.ops[1..];
      MovedNowhere(line, c);
    }
    SmoothFlush(line, c, Active(s));
  }

  lemma SmoothFsyncFails(s: State, res: int)
    requires IoInv(s) && SmoothState(s) && CanFsync(s.ker) && res < 0
    ensures SmoothState(s.(ker := FsyncFailed(s.ker, res)))
  {
    hide LineInv, PlanOk, ResultsOk, LineOf, Moved, SmoothInv;
    var line, c, w := Line(s), |s.ker.cq|, s.ker.ops[0].work;
    assert line[c] == SlotOf(w);
    LinePost(s.ker.cq, s.ker.ops, s.eng.pending, 0, res);
    assert Without(s.ker.ops, 0) == s.ker.ops[1..];
    MovedInPlace(line, c, CqSlot(Cqe(w, res)));
    SmoothFailed(line, c, Active(s), CqSlot(Cqe(w, res)));
  }

  lemma SmoothKernelRemove(s: State, i: nat, gone: bool)
    requires IoInv(s) && SmoothState(s) && CanRemove(s.ker, i)
    ensures SmoothState(s.(ker := DoRemove(s.ker, i, gone)))
  {
    hide LineInv, PlanOk, ResultsOk, LineOf, Moved, SmoothInv, Without;
    var line, c := Line(s), |s.ker.cq|;
    var w := s.ker.ops[i].work;
    var res := if gone then 0 else -2;
    assert line[c + i] == SlotOf(w) == CqSlot(Cqe(w, res));
    LinePost(s.ker.cq, s.ker.ops, s.eng.pending, i, res);
    SmoothPostRemove(line, c, Active(s), c + i);
  }

  lemma SmoothReap(s: State)
    requires IoInv(s) && SmoothState(s) && CanReap(s)
    ensures SmoothState(ReapHead(s))
  {
    hide LineInv, PlanOk, LineOf, Raise, RaiseAll, Sent, SentAll, Remaining, IsSettled;
    var c := s.ker.cq[0];
    assert Line(s)[0] == CqSlot(c);
    assert ResultOk(c);
    if c.work.Write? { CompleteResumes(c.work, c.res); }
    LineReap(s.ker.cq, s.ker.ops, s.eng.pending);
    SmoothTake(Line(s), |s.ker.cq|, Active(s));
    assert ReapHead(s).eng.pending == s.eng.pending;
  }

  lemma SmoothStep(s: State, step: Step)
    requires IoInv(s) && RouteInv(s) && BatchInv(s) && SmoothState(s) && Enabled(s, step) && Calm(s, step)
    requires IoInv(Next(s, step))
    ensures SmoothState(Next(s, step))
  {
    hide IoInv, RouteInv, BatchInv, LineOf, SmoothInv, TakenBatch, ApplyRequests, Sent, ReceiveMsg, ReapHead, Rotate,
         DoWrite, DoFsync, DoRemove;
    var t := Next(s, step);
    match step
    case Receive => SmoothReceive(s);
    case ArmFsync =>
      var more := Line(t)[|Line(s)|..];
      assert Line(t) == Line(s) + more by { assert forall i :: 0 <= i < |Line(s)| ==> Line(t)[i] == Line(s)[i]; }
      SmoothRemovals(Line(s), |s.ker.cq|, Active(s), more);
    case Submit => LineSubmit(s.ker.cq, s.ker.ops, s.eng.pending, s.eng.seg.ino);
    case KernelWrite(i, res) => SmoothKernelWrite(s, i, res);
    case KernelFsync => SmoothKernelFsync(s);
    case FailFsync(res) => SmoothFsyncFails(s, res);
    case KernelRemove(i, gone) => SmoothKernelRemove(s, i, gone);
    case ReapCqe => SmoothReap(s);
    case FinishRotate => SmoothRotate(s);
    case _ =>
  }

  lemma SmoothRotate(s: State)
    requires IoInv(s) && RouteInv(s) && CanFinishRotate(s)
    ensures SmoothState(Rotate(s))
  {
    hide LineOf, LineInv, PlanOk, SentAll, RaiseAll, SmoothInv;
    var t := Rotate(s);
    assert Line(s) == [] && Line(t) == [];
    QuietFileComplete(Line(s), 0, Active(s));
    SmoothQuiet(Active(t));
  }
}
