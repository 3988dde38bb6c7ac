/**
 Write-ahead durability: a batch counts as `Written` only once all its bytes are in the file, and as
 `Durable` only once an fsync that started after that has completed, retries and rotations included.
 */
module Durability {
  import opened Bytes
  import opened Types
  import opened Stage2
  import opened Acker
  import opened IoWork
  import opened IoLine
  import opened WalCore
  import opened Pipeline
  import opened Routing
  import opened Batches
  import opened BatchSteps
  import opened Storage

  // ---- Where batches are ----

  /** Batch `k` has its own range of its file, after all earlier ones there, and the file is to hold its records. */
  ghost predicate PlacedOk(s: State, k: nat)
    requires AllWellFormed(s.hist) && k < |s.locs| && k < |s.spans|
  {
    var loc := s.locs[k];
    && loc.ino < |s.ker.files|
    && loc.off + loc.len <= |s.ker.files[loc.ino].want|
    && s.spans[k].first + s.spans[k].n <= |s.hist|
    && s.ker.files[loc.ino].want[loc.off..loc.off + loc.len] == Redo(s.spans[k].lo, Slice(s, s.spans[k]))
    && forall j :: 0 <= j < k && s.locs[j].ino == loc.ino ==> s.locs[j].off + s.locs[j].len <= loc.off
  }

  ghost predicate AllLanded(f: File, loc: Loc) {
    loc.off + loc.len <= |f.want| && forall p: nat :: loc.off <= p < loc.off + loc.len ==> LandedAt(f, p)
  }

  ghost predicate AllSynced(f: File, loc: Loc) {
    loc.off + loc.len <= |f.want| && forall p: nat :: loc.off <= p < loc.off + loc.len ==> SyncedAt(f, p)
  }

  /** The levels a batch has reached are true of the file. */
  ghost predicate LevelTrue(s: State, k: nat)
    requires k < |s.locs| && k < |s.spans|
  {
    var loc, sp := s.locs[k], s.spans[k];
    && loc.ino < |s.ker.files|
    && forall id :: InSpan(sp, id) && 0 <= id < |s.reach| ==>
         && (s.reach[id] != AckPoint.Applied ==> AllLanded(s.ker.files[loc.ino], loc))
         && (s.reach[id] == Durable ==> AllSynced(s.ker.files[loc.ino], loc))
  }

  ghost predicate DurableInv(s: State) {
    && AllWellFormed(s.hist) && |s.locs| <= |s.spans|
    && forall k :: 0 <= k < |s.locs| ==> PlacedOk(s, k) && LevelTrue(s, k)
  }

  // ---- Files only gain ----

  ghost predicate Gains(f: File, f': File) {
    && f.want <= f'.want
    && (forall p: nat :: p < |f.want| && LandedAt(f, p) ==> LandedAt(f', p))
    && (forall p: nat :: p < |f.want| && SyncedAt(f, p) ==> SyncedAt(f', p))
  }

  ghost predicate AllGain(s: State, t: State) {
    |s.ker.files| <= |t.ker.files| && forall i :: 0 <= i < |s.ker.files| ==> Gains(s.ker.files[i], t.ker.files[i])
  }

  lemma GainsSynced(f: File)
    requires FileOk(f)
    ensures Gains(f, SyncedNow(f))
  {
    forall p: nat | p < |f.want| && SyncedAt(f, p) ensures SyncedAt(SyncedNow(f), p) {
      assert LandedAt(f, p);
    }
  }

  lemma GainsLanding(line: seq<Slot>, nCq: nat, f: File, i: nat, n: nat)
    requires LineInv(line, nCq, f) && i < |line| && line[i].work.Write?
    requires line[i].work.done + n <= |line[i].work.batch.out|
    ensures Gains(f, Landing(f, line[i].work, n))
  {
    hide WriteAt;
    assert SlotOk(line[i], f);
    LandingKeeps(f, line[i], n);
    assert forall p: nat :: p < |f.want| && SyncedAt(f, p) ==> SyncedAt(Landing(f, line[i].work, n), p);
  }

  lemma GainsSelf(f: File)
    ensures Gains(f, f)
  {
  }

  lemma IngestGains(s: State)
    requires IoInv(s) && CanReceive(s) && s.chan[0].WriteMsg?
    ensures AllGain(s, ReceiveWrite(s))
  {
    hide LineOf, LineInv, PlanOk, ResultsOk, Encoded, RecsOf;
    var t := ReceiveWrite(s);
    assert forall p: nat :: p < |Active(s).want| ==> t.ker.files[s.eng.seg.ino].want[p] == Active(s).want[p];
  }

  lemma FilesGain(s: State, step: Step)
    requires IoInv(s) && RouteInv(s) && Enabled(s, step)
    ensures AllGain(s, Next(s, step))
  {
    hide LineOf, LineInv, PlanOk, ResultsOk, RemovesBelow, SegmentOpen, WriteAt, ApplyRequests, TakenBatch, Sent,
         SentAll, RaiseAll, Raise, Remaining, Encoded, Names.Sorted, Reap, Gains, ReceiveWrite, Landing;
    forall i | 0 <= i < |s.ker.files| ensures Gains(s.ker.files[i], s.ker.files[i]) { GainsSelf(s.ker.files[i]); }
    match step
    case Receive => if s.chan[0].WriteMsg? { IngestGains(s); }
    case KernelWrite(i, res) =>
      assert Line(s)[|s.ker.cq| + i] == SlotOf(s.ker.ops[i].work);
      GainsLanding(Line(s), |s.ker.cq|, Active(s), |s.ker.cq| + i, Wrote(res));
    case KernelFsync =>
      LineFile(Line(s), |s.ker.cq|, Active(s));
      GainsSynced(Active(s));
    case FinishRotate =>
      LineFile(Line(s), |s.ker.cq|, Active(s));
      GainsSynced(Active(s));
    case _ =>
  }

  lemma LineFile(line: seq<Slot>, nCq: nat, f: File)
    requires LineInv(line, nCq, f)
    ensures FileOk(f)
  {
  }

  lemma GainsRange(f: File, f': File, loc: Loc)
    requires Gains(f, f')
    ensures AllLanded(f, loc) ==> AllLanded(f', loc)
    ensures AllSynced(f, loc) ==> AllSynced(f', loc)
  {
  }

  lemma PlacedStable(s: State, t: State, k: nat)
    requires DurableInv(s) && Extends(s, t) && AllGain(s, t) && k < |s.locs|
    ensures PlacedOk(t, k)
  {
    hide Redo, Gains;
    assert PlacedOk(s, k);
    var loc := s.locs[k];
    assert t.locs[k] == loc && t.spans[k] == s.spans[k];
    GainsWant(s.ker.files[loc.ino], t.ker.files[loc.ino], loc);
    assert Slice(t, t.spans[k]) == Slice(s, s.spans[k]);
    assert forall j :: 0 <= j < k ==> t.locs[j] == s.locs[j];
  }

  lemma GainsWant(f: File, f': File, loc: Loc)
    requires Gains(f, f') && loc.off + loc.len <= |f.want|
    ensures loc.off + loc.len <= |f'.want| && f'.want[loc.off..loc.off + loc.len] == f.want[loc.off..loc.off + loc.len]
  {
  }

  lemma LevelStable(s: State, t: State, k: nat)
    requires DurableInv(s) && Extends(s, t) && AllGain(s, t) && k < |s.locs|
    requires forall id :: InSpan(s.spans[k], id) && 0 <= id < |s.reach| ==> id < |t.reach| && t.reach[id] == s.reach[id]
    requires s.spans[k].first + s.spans[k].n <= |s.reach|
    ensures LevelTrue(t, k)
  {
    hide PlacedOk, Gains, AllLanded, AllSynced;
    assert LevelTrue(s, k);
    var loc := s.locs[k];
    assert t.locs[k] == loc && t.spans[k] == s.spans[k];
    GainsRange(s.ker.files[loc.ino], t.ker.files[loc.ino], loc);
  }

  /** Steps that raise no level keep every level true. */
  lemma DurableFrame(s: State, t: State)
    requires DurableInv(s) && BatchInv(s) && Extends(s, t) && AllGain(s, t)
    requires s.reach <= t.reach && t.locs == s.locs
    ensures DurableInv(t)
  {
    hide PlacedOk, LevelTrue, BatchInv, AllGain, DurableInv;
    BatchBasics(s);
    DurableBasics(s);
    forall k | 0 <= k < |t.locs| ensures PlacedOk(t, k) && LevelTrue(t, k) {
      PlacedStable(s, t, k);
      assert s.spans[k].first + s.spans[k].n <= |s.reach|;
      LevelStable(s, t, k);
    }
    DurableWrap(t);
  }

  lemma BatchBasics(s: State)
    requires BatchInv(s)
    ensures AllWellFormed(s.hist) && |s.conns| == |s.hist| && |s.reach| == |s.hist| && |s.locs| <= |s.spans|
    ensures forall k :: 0 <= k < |s.spans| ==> s.spans[k].n >= 1 && s.spans[k].first + s.spans[k].n <= |s.hist|
  {
    hide ChanOk, WritesOk, WaitersOk, RecsOf, Exec;
    assert forall k :: 0 <= k < |s.spans| ==> SpanOk(s, s.spans[k]);
  }

  lemma DurableBasics(s: State)
    requires DurableInv(s)
    ensures AllWellFormed(s.hist) && |s.locs| <= |s.spans|
  {
  }

  lemma DurableWrap(s: State)
    requires AllWellFormed(s.hist) && |s.locs| <= |s.spans|
    requires forall k :: 0 <= k < |s.locs| ==> PlacedOk(s, k) && LevelTrue(s, k)
    ensures DurableInv(s)
  {
  }

  // ---- Ingestion ----

  lemma IngestPlaced(s: State)
    requires IoInv(s) && BatchInv(s) && DurableInv(s) && CanReceive(s) && s.chan[0].WriteMsg?
    requires AllGain(s, ReceiveWrite(s)) && Extends(s, ReceiveWrite(s))
    ensures var t := ReceiveWrite(s); PlacedOk(t, |s.locs|) && LevelTrue(t, |s.locs|)
  {
    hide BatchInv, LineOf, LineInv, PlanOk, ResultsOk, RecsOf, Redo, Gains, LevelTrue;
    AssertionsHold(s);
    BatchBasics(s);
    var t := ReceiveWrite(s);
    var k := |s.locs|;
    var b := Encoded(s.chan[0].batch);
    var loc := t.locs[k];
    BatchHi(s, s.chan[0].batch, AckPoint.Applied);
    assert Slice(t, t.spans[k]) == Slice(s, s.spans[k]);
    assert [] + Redo(b.lo, Bodies(b.items)) == Redo(b.lo, Bodies(b.items));
    assert t.ker.files[loc.ino].want == Active(s).want + b.out;
    forall j | 0 <= j < k && t.locs[j].ino == loc.ino ensures t.locs[j].off + t.locs[j].len <= loc.off {
      assert PlacedOk(s, j);
    }
    assert LevelTrue(t, k) by { FreshLevel(s, t, k); }
  }

  lemma FreshLevel(s: State, t: State, k: nat)
    requires AllWellFormed(s.hist) && |s.conns| == |s.hist| && |s.reach| == |s.hist|
    requires k < |t.locs| && k < |s.spans| && t.spans == s.spans && t.reach == s.reach && t.locs[k].ino < |t.ker.files|
    requires exists b: Batch :: b.no == k && BatchAt(s, b, AckPoint.Applied)
    ensures LevelTrue(t, k)
  {
  }

  lemma DurableReceive(s: State)
    requires IoInv(s) && RouteInv(s) && BatchInv(s) && DurableInv(s) && CanReceive(s)
    ensures DurableInv(ReceiveMsg(s))
  {
    hide BatchInv, DurableInv, IoInv, RouteInv, PlacedOk, LevelTrue, AllGain, ReceiveWrite, Names.Sorted;
    var t := ReceiveMsg(s);
    FilesGain(s, Receive);
    BatchBasics(s);
    if s.chan[0].WriteMsg? {
      assert Extends(s, t) by { IngestExtends(s); }
      IngestPlaced(s);
      DurableBasics(s);
      IngestLocs(s);
      forall k | 0 <= k < |t.locs| ensures PlacedOk(t, k) && LevelTrue(t, k) {
        if k < |s.locs| {
          PlacedStable(s, t, k);
          LevelStable(s, t, k);
        }
      }
      DurableWrap(t);
    } else {
      DurableFrame(s, t);
    }
  }

  lemma IngestExtends(s: State)
    requires BatchInv(s) && IoInv(s) && CanReceive(s) && s.chan[0].WriteMsg?
    ensures Extends(s, ReceiveWrite(s))
  {
    hide BatchInv, LineInv, PlanOk;
    ReceiveBooks(s);
  }

  lemma IngestLocs(s: State)
    requires BatchInv(s) && IoInv(s) && CanReceive(s) && s.chan[0].WriteMsg?
    ensures var t := ReceiveWrite(s);
            |t.locs| == |s.locs| + 1 && t.spans == s.spans && t.reach == s.reach && |t.locs| <= |s.spans|
  {
    hide BatchInv, LineInv, PlanOk, RecsOf;
    AssertionsHold(s);
  }

  // ---- Reaping a written batch ----

  /** The head's range has landed: it has, and no other write in the line shares it. */
  lemma HeadLanded(line: seq<Slot>, nCq: nat, f: File, loc: Loc)
    requires LineInv(line, nCq, f) && nCq > 0 && line[0].work.Write? && line[0].landed == |line[0].work.batch.out|
    requires loc.off == line[0].work.offset && loc.len == |line[0].work.batch.out|
    ensures AllLanded(f, loc)
  {
    assert SlotOk(line[0], f);
    forall p: nat | loc.off <= p < loc.off + loc.len ensures LandedAt(f, p) {
      assert LandedAt(f, p) || Claimed(line, p);
      if i :| 0 <= i < |line| && Cov(line[i], p) {
        assert i == 0 || Apart(line[0], line[i]);
      }
    }
  }

  lemma DurableWritten(s: State)
    requires IoInv(s) && RouteInv(s) && BatchInv(s) && DurableInv(s) && CanReap(s) && s.ker.cq[0].work.Write?
    requires Complete(s.ker.cq[0].work, s.ker.cq[0].res) == Finished(Some(s.ker.cq[0].work.batch))
    ensures DurableInv(ReapHead(s))
  {
    hide DurableInv, LineInv, PlanOk, RouteInv, PlacedOk, LevelTrue, AllGain, LineOf, Raise, Sent, Remaining, IsSettled,
         HistoryOk, SpansOk, ChanOk, WaitersOk, BatchAt, Redo;
    var t := ReapHead(s);
    var c := s.ker.cq[0];
    var k := c.work.batch.no;
    FilesGain(s, ReapCqe);
    BatchBasics(s);
    DurableBasics(s);
    assert Line(s)[0] == CqSlot(c);
    assert WriteOk(s, c.work);
    assert ResultOk(c);
    CompleteResumes(c.work, c.res);
    HeadLanded(Line(s), |s.ker.cq|, Active(s), s.locs[k]);
    forall j | 0 <= j < |t.locs| ensures PlacedOk(t, j) && LevelTrue(t, j) {
      PlacedStable(s, t, j);
      if j == k {
        RaisedLevel(s, t, k);
      } else {
        RaiseSpared(s, t, k, AckPoint.Written, j);
        LevelStable(s, t, j);
      }
    }
    DurableWrap(t);
  }

  lemma RaiseSpared(s: State, t: State, k: nat, level: AckPoint, j: nat)
    requires AllWellFormed(s.hist) && SpansOk(s) && k < |s.spans| && j < |s.spans| && j != k
    requires t.reach == Raise(s.reach, s.spans[k], level)
    ensures forall id :: InSpan(s.spans[j], id) && 0 <= id < |s.reach| ==> t.reach[id] == s.reach[id]
  {
    hide SpansOk, Raise;
    forall id | InSpan(s.spans[j], id) && 0 <= id < |s.reach| ensures t.reach[id] == s.reach[id] {
      SpansApart(s, j, k, id);
    }
  }

  lemma RaisedLevel(s: State, t: State, k: nat)
    requires k < |s.spans| && k < |t.locs| && t.spans == s.spans && t.locs[k].ino < |t.ker.files|
    requires t.reach == Raise(s.reach, s.spans[k], AckPoint.Written)
    requires AllLanded(t.ker.files[t.locs[k].ino], t.locs[k])
    ensures LevelTrue(t, k)
  {
    hide Raise, AllLanded, AllSynced;
  }

  // ---- Reaping an fsync, and sealing a segment ----

  /** When an fsync's completion is at the head, every batch waiting for one is durable. */
  lemma WaiterSynced(s: State, a: nat)
    requires IoInv(s) && BatchInv(s) && DurableInv(s) && s.ker.cq != []
    requires s.ker.cq[0].work.Fsync? && s.ker.cq[0].res >= 0
    requires a < |s.eng.awaiting|
    ensures var k := s.eng.awaiting[a].no;
            && k < |s.locs| && s.locs[k].ino == s.eng.seg.ino && AllSynced(Active(s), s.locs[k])
  {
    hide PlanOk, LineOf, HistoryOk, SpansOk, ChanOk, Redo, Expected, SpanOk, LevelTrue;
    BatchBasics(s);
    var line, f := Line(s), Active(s);
    var b := s.eng.awaiting[a];
    var loc := s.locs[b.no];
    assert line[0] == CqSlot(s.ker.cq[0]);
    assert PlacedOk(s, b.no);
    forall p: nat | loc.off <= p < loc.off + loc.len ensures SyncedAt(f, p) {
      assert FlushCovers(line, f, 0, p);
      forall i | 0 <= i < |line| ensures !InRange(line[i], p) {
        if line[i].work.Write? { WriteElsewhere(s, a, i); }
      }
    }
  }

  lemma WriteElsewhere(s: State, a: nat, i: nat)
    requires BatchInv(s) && DurableInv(s) && a < |s.eng.awaiting| && i < |Line(s)| && Line(s)[i].work.Write?
    ensures var k, w := s.eng.awaiting[a].no, Line(s)[i].work;
            && k < |s.locs|
            && (s.locs[k].off + s.locs[k].len <= w.offset || w.offset + |w.batch.out| <= s.locs[k].off)
  {
    hide LineOf, HistoryOk, SpansOk, ChanOk, Redo, Expected, SpanOk, LevelTrue;
    BatchBasics(s);
    var b, w := s.eng.awaiting[a], Line(s)[i].work;
    assert WriteOk(s, w);
    assert BatchAt(s, b, AckPoint.Written);
    assert InSpan(s.spans[b.no], s.spans[b.no].first) && InSpan(s.spans[w.batch.no], s.spans[w.batch.no].first);
    assert b.no != w.batch.no;
    assert PlacedOk(s, b.no) && PlacedOk(s, w.batch.no);
  }

  /** Raising the waiters to `Durable` keeps every level true once their ranges are synced. */
  lemma SettledLevels(s: State, t: State, k: nat)
    requires DurableInv(s) && BatchInv(s) && Extends(s, t) && AllGain(s, t) && k < |s.locs|
    requires Spanned(s.eng.awaiting, s.spans) && t.reach == RaiseAll(s.reach, s.spans, s.eng.awaiting, Durable)
    requires forall a :: 0 <= a < |s.eng.awaiting| ==>
      var j := s.eng.awaiting[a].no;
      j < |s.locs| && s.locs[j].ino < |t.ker.files| && AllSynced(t.ker.files[s.locs[j].ino], s.locs[j])
      && AllLanded(t.ker.files[s.locs[j].ino], s.locs[j])
    ensures LevelTrue(t, k)
  {
    hide DurableInv, BatchInv, PlacedOk, AllLanded, AllSynced, RaiseAll, LevelTrue;
    BatchBasics(s);
    DurableBasics(s);
    if a :| 0 <= a < |s.eng.awaiting| && s.eng.awaiting[a].no == k {
      TopLevel(t, k);
    } else {
      HistoryFromBatch(s);
      forall id | InSpan(s.spans[k], id) && 0 <= id < |s.reach| ensures t.reach[id] == s.reach[id] {
        RaiseAllKept(s, s.eng.awaiting, Durable, k, id);
      }
      LevelStable(s, t, k);
    }
  }

  lemma TopLevel(t: State, k: nat)
    requires k < |t.locs| && k < |t.spans| && t.locs[k].ino < |t.ker.files|
    requires AllLanded(t.ker.files[t.locs[k].ino], t.locs[k]) && AllSynced(t.ker.files[t.locs[k].ino], t.locs[k])
    ensures LevelTrue(t, k)
  {
  }

  lemma DurableSettled(s: State, t: State)
    requires DurableInv(s) && BatchInv(s) && Extends(s, t) && AllGain(s, t) && t.locs == s.locs
    requires Spanned(s.eng.awaiting, s.spans) && t.reach == RaiseAll(s.reach, s.spans, s.eng.awaiting, Durable)
    requires forall a :: 0 <= a < |s.eng.awaiting| ==>
      var j := s.eng.awaiting[a].no;
      j < |s.locs| && s.locs[j].ino < |t.ker.files| && AllSynced(t.ker.files[s.locs[j].ino], s.locs[j])
      && AllLanded(t.ker.files[s.locs[j].ino], s.locs[j])
    ensures DurableInv(t)
  {
    hide DurableInv, BatchInv, PlacedOk, AllLanded, AllSynced, RaiseAll, LevelTrue, AllGain;
    BatchBasics(s);
    DurableBasics(s);
    forall k | 0 <= k < |t.locs| ensures PlacedOk(t, k) && LevelTrue(t, k) {
      PlacedStable(s, t, k);
      SettledLevels(s, t, k);
    }
    DurableWrap(t);
  }

  lemma SyncedLanded(f: File, loc: Loc)
    requires FileOk(f) && AllSynced(f, loc)
    ensures AllLanded(f, loc)
  {
  }

  lemma DurableReap(s: State)
    requires IoInv(s) && RouteInv(s) && BatchInv(s) && DurableInv(s) && CanReap(s)
    ensures DurableInv(ReapHead(s))
  {
    hide DurableInv, BatchInv, LineInv, PlanOk, RouteInv, AllGain, LineOf, Raise, RaiseAll, Sent, SentAll, Remaining,
         IsSettled, AllSynced, AllLanded, ResultsOk;
    var t := ReapHead(s);
    var c := s.ker.cq[0];
    FilesGain(s, ReapCqe);
    BatchBasics(s);
    assert Extends(s, t);
    match Complete(c.work, c.res)
    case Finished(Some(b)) => DurableWritten(s);
    case Flushed =>
      forall a | 0 <= a < |s.eng.awaiting|
        ensures var j := s.eng.awaiting[a].no;
          j < |s.locs| && s.locs[j].ino < |t.ker.files| && AllSynced(t.ker.files[s.locs[j].ino], s.locs[j])
          && AllLanded(t.ker.files[s.locs[j].ino], s.locs[j])
      {
        WaiterSynced(s, a);
        LineFile(Line(s), |s.ker.cq|, Active(s));
        SyncedLanded(Active(s), s.locs[s.eng.awaiting[a].no]);
      }
      DurableSettled(s, t);
    case _ => DurableFrame(s, t);
  }

  lemma DurableRotate(s: State)
    requires IoInv(s) && RouteInv(s) && BatchInv(s) && DurableInv(s) && CanFinishRotate(s)
    ensures DurableInv(Rotate(s))
  {
    hide DurableInv, BatchInv, LineInv, PlanOk, RouteInv, AllGain, LineOf, RaiseAll, SentAll, ResultsOk, AllSynced,
         AllLanded;
    var t := Rotate(s);
    FilesGain(s, FinishRotate);
    BatchBasics(s);
    DurableBasics(s);
    assert Extends(s, t);
    assert Line(s) == [];
    QuietFileComplete(Line(s), 0, Active(s));
    assert Whole(t.ker.files[s.eng.seg.ino]);
    forall a | 0 <= a < |s.eng.awaiting|
      ensures var j := s.eng.awaiting[a].no;
        j < |s.locs| && s.locs[j].ino < |t.ker.files| && AllSynced(t.ker.files[s.locs[j].ino], s.locs[j])
        && AllLanded(t.ker.files[s.locs[j].ino], s.locs[j])
    {
      WaiterPlace(s, a);
      WholeRange(t.ker.files[s.eng.seg.ino], s.locs[s.eng.awaiting[a].no]);
    }
    DurableSettled(s, t);
  }

  lemma WaiterPlace(s: State, a: nat)
    requires BatchInv(s) && DurableInv(s) && a < |s.eng.awaiting| && s.eng.seg.ino < |s.ker.files|
    ensures var k := s.eng.awaiting[a].no;
            && k < |s.locs| && s.locs[k].ino == s.eng.seg.ino
            && s.locs[k].off + s.locs[k].len <= |s.ker.files[s.eng.seg.ino].want|
  {
    hide LineOf, HistoryOk, SpansOk, ChanOk, WritesOk, Redo, Expected, SpanOk, LevelTrue, BatchAt;
    BatchBasics(s);
    var b := s.eng.awaiting[a];
    assert Ingested(s, b);
    assert PlacedOk(s, b.no);
  }

  lemma WholeRange(f: File, loc: Loc)
    requires Whole(f) && loc.off + loc.len <= |f.want|
    ensures AllSynced(f, loc) && AllLanded(f, loc)
  {
  }

  lemma DurableInit(s: State)
    requires Init(s)
    ensures DurableInv(s)
  {
  }

  lemma DurableStep(s: State, step: Step)
    requires IoInv(s) && RouteInv(s) && BatchInv(s) && DurableInv(s) && Enabled(s, step)
    ensures DurableInv(Next(s, step))
  {
    hide BatchInv, IoInv, DurableInv, RouteInv, AllGain, LineOf, ReceiveMsg, DoWrite, DoFsync, DoRemove, ReapHead,
         Rotate;
    var t := Next(s, step);
    FilesGain(s, step);
    BatchBasics(s);
    match step
    case Take(reqs) => DurableTake(s, reqs);
    case Receive => DurableReceive(s);
    case ReapCqe => DurableReap(s);
    case FinishRotate => DurableRotate(s);
    case _ => DurableFrame(s, t);
  }

  lemma DurableTake(s: State, reqs: seq<Req>)
    requires BatchInv(s) && DurableInv(s) && CanTake(s, reqs) && AllGain(s, TakeBatch(s, reqs))
    ensures DurableInv(TakeBatch(s, reqs))
  {
    hide DurableInv, ChanOk, WritesOk, WaitersOk, SpansOk, AllGain, ApplyRequests, Sent, Exec, RecsOf, Remaining;
    var t := TakeBatch(s, reqs);
    TakeHistory(s, reqs);
    DurableFrame(s, t);
  }
}
