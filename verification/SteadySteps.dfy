/**
 Steady runs: writes may be interrupted and retried, any number of times and across any fsync, but each
 time the kernel writes either everything or nothing. Holes in the segment are then whole batches.
 */
module SteadySteps {
  import opened Bytes
  import opened Acker
  import opened IoWork
  import opened IoLine
  import opened WalCore
  import opened Pipeline
  import opened LineSteps
  import opened Batches
  import opened Storage
  import opened Durability
  import opened CalmSteps
  import opened TornBatches
  import opened Routing
  import CrashReplay

  ghost predicate Steady(s: State, step: Step)
    requires Enabled(s, step)
  {
    && Forward(s, step)
    && (step.KernelWrite? ==>
         var w := s.ker.ops[step.i].work;
         step.res <= 0 || step.res == |w.batch.out| - w.done)
  }

  lemma WholeMoved(line: seq<Slot>, c: nat, m: nat, x: Slot)
    requires WholeOrNone(line) && c <= m < |line| && WholeOrNone([x])
    ensures WholeOrNone(Moved(line, c, m, x))
  {
    hide Moved;
    assert [x][0] == x;
  }

  lemma WholeRequeued(line: seq<Slot>, q: nat)
    requires WholeOrNone(line) && 0 <= q < |line| && line[0].work.Write? && line[0].landed < |line[0].work.batch.out|
    ensures WholeOrNone(Requeued(line, q))
  {
    hide Requeued;
  }

  lemma SteadyWrite(s: State, i: nat, res: int)
    requires IoInv(s) && WholeOrNone(Line(s)) && CanWrite(s.ker, i, res)
    requires res <= 0 || res == |s.ker.ops[i].work.batch.out| - s.ker.ops[i].work.done
    ensures WholeOrNone(Line(s.(ker := DoWrite(s.ker, i, res))))
  {
    hide IoInv, LineOf, Moved, Landing, Without, MayStart, WholeOrNone, CqSlot;
    var line, c, w := Line(s), |s.ker.cq|, s.ker.ops[i].work;
    assert line[c + i] == SlotOf(w);
    LinePost(s.ker.cq, s.ker.ops, s.eng.pending, i, res);
    WholePosted(line, c + i, w, res);
    WholeMoved(line, c, c + i, CqSlot(Cqe(w, res)));
  }

  lemma WholePosted(line: seq<Slot>, m: nat, w: Work, res: int)
    requires WholeOrNone(line) && m < |line| && line[m] == SlotOf(w) && w.Write?
    requires res <= 0 || res == |w.batch.out| - w.done
    ensures WholeOrNone([CqSlot(Cqe(w, res))])
  {
  }

  lemma SteadyReap(s: State)
    requires IoInv(s) && WholeOrNone(Line(s)) && CanReap(s)
    ensures WholeOrNone(Line(ReapHead(s)))
  {
    hide LineInv, PlanOk, LineOf, Requeued, ReapHead, WholeOrNone, FilesOk;
    var c := s.ker.cq[0];
    assert Line(s)[0] == CqSlot(c);
    assert ResultOk(c);
    if Complete(c.work, c.res).Retry? {
      CompleteResumes(c.work, c.res);
      RetryState(s);
      LineRetry(s.ker.cq, s.ker.ops, s.eng.pending);
      WholeRequeued(Line(s), |s.ker.cq| - 1 + |s.ker.ops|);
    } else {
      ReapLine(s);
      LineReap(s.ker.cq, s.ker.ops, s.eng.pending);
      WholeTail(Line(s));
    }
  }

  lemma WholeTail(line: seq<Slot>)
    requires WholeOrNone(line) && line != []
    ensures WholeOrNone(line[1..])
  {
  }

  lemma ReapLine(s: State)
    requires CanReap(s) && !Complete(s.ker.cq[0].work, s.ker.cq[0].res).Retry?
    ensures ReapHead(s).eng.pending == s.eng.pending && ReapHead(s).ker == s.ker.(cq := s.ker.cq[1..])
  {
    hide Raise, RaiseAll, Sent, SentAll, Remaining, IsSettled;
  }

  /** What is queued behind is untouched by the kernel. */
  lemma LineGrown(s: State, t: State)
    requires WholeOrNone(Line(s)) && t.ker.cq == s.ker.cq && t.ker.ops == s.ker.ops && s.eng.pending <= t.eng.pending
    requires forall i :: |s.eng.pending| <= i < |t.eng.pending| && t.eng.pending[i].Write? ==>
               t.eng.pending[i].done == 0
    ensures WholeOrNone(Line(t))
  {
    hide LineOf;
    var line, n := Line(t), |Line(s)|;
    forall i | 0 <= i < |line| && line[i].work.Write?
      ensures line[i].work.done == 0 && (line[i].landed == 0 || line[i].landed == |line[i].work.batch.out|)
    {
      if i < n {
        assert line[i] == Line(s)[i];
      } else {
        assert line[i] == SlotOf(t.eng.pending[i - |s.ker.cq| - |s.ker.ops|]);
      }
    }
  }

  lemma SteadyRemove(s: State, i: nat, gone: bool)
    requires WholeOrNone(Line(s)) && CanRemove(s.ker, i)
    ensures WholeOrNone(Line(s.(ker := DoRemove(s.ker, i, gone))))
  {
    hide LineOf, Moved, Without, MayStart;
    var w, res := s.ker.ops[i].work, if gone then 0 else -2;
    LinePost(s.ker.cq, s.ker.ops, s.eng.pending, i, res);
    WholeMoved(Line(s), |s.ker.cq|, |s.ker.cq| + i, CqSlot(Cqe(w, res)));
  }

  lemma SteadyFsync(s: State)
    requires WholeOrNone(Line(s)) && CanFsync(s.ker)
    ensures WholeOrNone(Line(s.(ker := DoFsync(s.ker))))
  {
    hide LineOf, Moved;
    var w := s.ker.ops[0].work;
    LinePost(s.ker.cq, s.ker.ops, s.eng.pending, 0, 0);
    assert Without(s.ker.ops, 0) == s.ker.ops[1..];
    WholeMoved(Line(s), |s.ker.cq|, |s.ker.cq|, CqSlot(Cqe(w, 0)));
  }

  lemma SteadyFsyncFails(s: State, res: int)
    requires WholeOrNone(Line(s)) && CanFsync(s.ker)
    ensures WholeOrNone(Line(s.(ker := FsyncFailed(s.ker, res))))
  {
    hide LineOf, Moved;
    LinePost(s.ker.cq, s.ker.ops, s.eng.pending, 0, res);
    assert Without(s.ker.ops, 0) == s.ker.ops[1..];
    WholeMoved(Line(s), |s.ker.cq|, |s.ker.cq|, CqSlot(Cqe(s.ker.ops[0].work, res)));
  }

  lemma SteadyReceive(s: State)
    requires WholeOrNone(Line(s)) && CanReceive(s)
    ensures WholeOrNone(Line(ReceiveMsg(s)))
  {
    hide LineOf, WholeOrNone, Encoded, Names.Sorted, Stage2.RecsOf, Grown;
    LineGrown(s, ReceiveMsg(s));
  }

  lemma SteadyStep(s: State, step: Step)
    requires IoInv(s) && WholeOrNone(Line(s)) && Enabled(s, step) && Steady(s, step)
    ensures WholeOrNone(Line(Next(s, step)))
  {
    hide IoInv, LineOf, WholeOrNone, TakenBatch, ApplyRequests, Sent, Encoded, ReapHead, DoWrite, DoFsync, DoRemove,
         SentAll, RaiseAll, ReceiveMsg, Freed;
    var t := Next(s, step);
    match step
    case Receive => SteadyReceive(s);
    case ArmFsync => LineGrown(s, t);
    case Submit => LineSubmit(s.ker.cq, s.ker.ops, s.eng.pending, s.eng.seg.ino);
    case KernelWrite(i, res) => SteadyWrite(s, i, res);
    case KernelFsync => SteadyFsync(s);
    case FailFsync(res) => SteadyFsyncFails(s, res);
    case KernelRemove(i, gone) => SteadyRemove(s, i, gone);
    case ReapCqe => SteadyReap(s);
    case FinishRotate => assert Line(t) == Line(s);
    case _ =>
  }

  // ---- What was last fsynced ----

  /** Nothing the invariant reads has changed, except that the plan may have grown. */
  lemma EntireFrame(s: State, t: State)
    requires SyncedEntire(s) && t.locs == s.locs && t.eng.seg.ino == s.eng.seg.ino && t.eng.seg.ino < |t.ker.files|
    requires Active(t).want == Active(s).want && Active(t).synced == Active(s).synced
    ensures SyncedEntire(t)
  {
    forall k | 0 <= k < |t.locs| && t.locs[k].ino == t.eng.seg.ino
      ensures Entire(Active(t), Active(t).synced, t.locs[k])
    {
      assert Entire(Active(s), Active(s).synced, s.locs[k]);
    }
  }

  /** A longer plan does not disturb the batches planned before. */
  lemma EntireGrown(f: File, f': File, c: bytes, loc: Loc)
    requires Entire(f, c, loc) && f.want <= f'.want
    ensures Entire(f', c, loc)
  {
    assert forall p: nat :: Within(loc, p) ==> f'.want[p] == f.want[p];
  }

  lemma EntireReceive(s: State)
    requires IoInv(s) && SyncedEntire(s) && CanReceive(s) && s.chan[0].WriteMsg?
    ensures SyncedEntire(ReceiveWrite(s))
  {
    hide LineInv, PlanOk, ResultsOk, LineOf, Encoded, Entire, Stage2.RecsOf;
    var t := ReceiveWrite(s);
    var f, f' := Active(s), Active(t);
    CrashReplay.FileBounds(Line(s), |s.ker.cq|, f);
    forall k | 0 <= k < |t.locs| && t.locs[k].ino == t.eng.seg.ino ensures Entire(f', f'.synced, t.locs[k]) {
      if k < |s.locs| {
        EntireGrown(f, f', f.synced, s.locs[k]);
      } else {
        Unwritten(f', t.locs[k]);
      }
    }
  }

  lemma Unwritten(f: File, loc: Loc)
    requires |f.synced| <= loc.off && loc.off + loc.len <= |f.want|
    ensures Entire(f, f.synced, loc)
  {
    assert Absent(f.synced, loc);
  }

  lemma EntireFsync(s: State)
    requires IoInv(s) && RouteInv(s) && BatchInv(s) && DurableInv(s) && WholeOrNone(Line(s)) && CanFsync(s.ker)
    ensures SyncedEntire(s.(ker := DoFsync(s.ker)))
  {
    hide BatchInv, DurableInv, LineInv, PlanOk, ResultsOk, LineOf, WholeOrNone, RemovesBelow, SegmentOpen, Entire;
    WholeWritesEntire(s);
    var t := s.(ker := DoFsync(s.ker));
    forall k | 0 <= k < |t.locs| && t.locs[k].ino == t.eng.seg.ino
      ensures Entire(Active(t), Active(t).synced, t.locs[k])
    {
      EntireGrown(Active(s), Active(t), Active(s).data, s.locs[k]);
    }
  }

  lemma EntireRotate(s: State)
    requires IoInv(s) && RouteInv(s) && DurableInv(s) && CanFinishRotate(s) && s.eng.rotating.value >= s.eng.seg.start
    ensures SyncedEntire(Rotate(s))
  {
    hide DurableInv, LineInv, PlanOk, ResultsOk, LineOf, RemovesBelow, SentAll, RaiseAll, Freed;
    var t := Rotate(s);
    assert Line(s) == [];
    QuietFileComplete(Line(s), 0, Active(s));
    forall k | 0 <= k < |t.locs| && t.locs[k].ino == t.eng.seg.ino
      ensures Entire(Active(t), Active(t).synced, t.locs[k])
    {
      PlaceFits(s, k);
      RotatedWhole(s);
      assert Present(Active(t), Active(t).synced, t.locs[k]);
    }
  }

  /** After a rotation the active file holds, fsynced, all it is to hold. */
  lemma RotatedWhole(s: State)
    requires IoInv(s) && RouteInv(s) && CanFinishRotate(s) && Active(s).data == Active(s).want
    ensures var t := Rotate(s);
            && t.eng.seg.ino < |t.ker.files| && Active(t).synced == Active(t).want && t.locs == s.locs
            && (t.eng.seg.ino < |s.ker.files| ==> Active(t).want == s.ker.files[t.eng.seg.ino].want)
  {
    hide LineInv, PlanOk, ResultsOk, LineOf, RemovesBelow, SentAll, RaiseAll, Freed;
  }

  ghost predicate SteadyInv(s: State) { WholeOrNone(Line(s)) && SyncedEntire(s) }

  lemma SteadyEntire(s: State, step: Step)
    requires IoInv(s) && RouteInv(s) && BatchInv(s) && DurableInv(s) && SteadyInv(s) && Enabled(s, step)
    requires Steady(s, step)
    ensures SyncedEntire(Next(s, step))
  {
    hide IoInv, RouteInv, BatchInv, DurableInv, LineOf, WholeOrNone, SyncedEntire, TakenBatch, ApplyRequests, Sent,
         ReceiveWrite, ReapHead, Rotate, Landing, SentAll, RaiseAll, Names.Sorted;
    var t := Next(s, step);
    assert s.eng.seg.ino < |s.ker.files| by { EntireBasics(s); }
    match step
    case Receive => if s.chan[0].WriteMsg? { EntireReceive(s); } else { EntireFrame(s, t); }
    case KernelWrite(i, res) =>
      LandingPlan(s.ker.files[s.ker.ops[i].fd], s.ker.ops[i].work, Wrote(res));
      EntireFrame(s, t);
    case KernelFsync => EntireFsync(s);
    case ReapCqe => ReapFiles(s); EntireFrame(s, t);
    case FinishRotate => EntireRotate(s);
    case _ => EntireFrame(s, t);
  }

  lemma EntireBasics(s: State)
    requires SyncedEntire(s)
    ensures s.eng.seg.ino < |s.ker.files|
  {
  }

  lemma LandingPlan(f: File, w: Work, n: nat)
    requires w.Write? && w.done + n <= |w.batch.out|
    ensures var f' := Landing(f, w, n); f'.want == f.want && f'.synced == f.synced
  {
    hide WriteAt;
  }

  lemma ReapFiles(s: State)
    requires CanReap(s)
    ensures var t := ReapHead(s); t.eng.seg == s.eng.seg && t.ker.files == s.ker.files && t.locs == s.locs
  {
    hide Raise, RaiseAll, Sent, SentAll, Remaining, IsSettled, Freed;
  }
}
