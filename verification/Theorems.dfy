/**
 What every reachable state of the write path guarantees, whatever the schedule, the completion order,
 the short writes and the retries.
 */
module Theorems {
  import opened Bytes
  import opened Types
  import opened Wire
  import opened WalFormat
  import opened Recovery
  import opened SnapshotReplay
  import opened Stage2
  import opened ByteAnswers
  import opened Acker
  import opened IoWork
  import opened IoLine
  import opened LossWindow
  import opened FsyncDuty
  import opened FsyncPlanner
  import opened WalCore
  import opened Pipeline
  import opened Routing
  import opened Batches
  import opened Storage
  import opened Durability
  import opened Replies
  import opened Outstanding
  import opened Buffers
  import opened Content
  import opened CalmSteps
  import opened LogOrder
  import opened EndToEnd
  import opened CrashReplay
  import opened TornBatches
  import opened CrashFiles
  import opened CrashRecovery
  import opened Runs

  // ---- Durability ----

  /** The batch of a PUT is on disk: the synced bytes at its place are the encoding of its records. */
  ghost predicate OnDisk(s: State, k: nat)
    requires AllWellFormed(s.hist)
  {
    && k < |s.locs| <= |s.spans| && s.spans[k].first + s.spans[k].n <= |s.hist|
    && s.locs[k].ino < |s.ker.files|
    && var f, loc := s.ker.files[s.locs[k].ino], s.locs[k];
    && loc.off + loc.len <= |f.synced|
    && f.synced[loc.off..loc.off + loc.len] == Redo(s.spans[k].lo, Slice(s, s.spans[k]))
  }

  /**
   Write-ahead durability, retries included: in Sync mode a PUT has been answered only if a completed
   fsync has covered every byte of its batch, its own record among them.
   */
  lemma AnsweredPutOnDisk(s: State, id: nat) returns (k: nat)
    requires Reachable(s) && s.eng.mode == Sync && Answered(s, id)
    requires id < |s.hist| && s.hist[id] != [] && OpOf(s.hist[id]) == Put
    ensures AllWellFormed(s.hist) && OnDisk(s, k) && InSpan(s.spans[k], id)
    ensures Rec(LsnOf(s, id), s.hist[id]) in RecsOf(s.spans[k].lo, Slice(s, s.spans[k]))
  {
    hide Reachable, Inv, RouteInv, BatchInv, IoInv, DurableInv, ReplyInv, OutInv, BufferInv, ContentInv,
         RecsOf, WellFormed, SyncedBatch, Answered, HistoryOk, SpansOk, WatermarkOk, OnDisk;
    ReachableInv(s);
    InvParts(s);
    HistoryFromBatch(s);
    AnsweredSynced(s, id);
    k :| k >= 0 && SyncedBatch(s, k, id);
    SyncedOnDisk(s, k, id);
    PutInBatch(s, k, id);
  }

  lemma SyncedOnDisk(s: State, k: nat, id: nat)
    requires HistoryOk(s) && SpansOk(s) && DurableInv(s) && ContentInv(s) && SyncedBatch(s, k, id)
    ensures OnDisk(s, k) && k < |s.spans| && InSpan(s.spans[k], id)
  {
    hide HistoryOk, SpansOk, DurableInv, ContentInv, RecsOf, WellFormed, Redo, AllSynced, RecsIn, EncodeLog;
    DurableAt(s, k);
    BatchRange(s, k);
    SyncedSlice(s.ker.files[s.locs[k].ino], s.locs[k]);
  }

  /** Likewise in Async mode, one level down: an answered PUT's batch has been handed to the file in full. */
  lemma AnsweredPutWritten(s: State, id: nat) returns (k: nat)
    requires Reachable(s) && s.eng.mode != NoFsync && Answered(s, id)
    requires id < |s.hist| && s.hist[id] != [] && OpOf(s.hist[id]) == Put
    ensures AllWellFormed(s.hist) && k < |s.locs| <= |s.spans| && InSpan(s.spans[k], id)
    ensures s.spans[k].first + s.spans[k].n <= |s.hist| && s.locs[k].ino < |s.ker.files|
    ensures var data, loc := s.ker.files[s.locs[k].ino].data, s.locs[k];
            loc.off + loc.len <= |data| && data[loc.off..loc.off + loc.len] == Redo(s.spans[k].lo, Slice(s, s.spans[k]))
  {
    hide Reachable, Inv, RouteInv, BatchInv, IoInv, DurableInv, ReplyInv, BufferInv, ContentInv, NoneDropped,
         InOrderReplies, PutsSpanned, RecsOf, WellFormed, Answered, HistoryOk, SpansOk, WatermarkOk, PlacedOk,
         AllLanded, AllSynced, Redo, RecsIn, EncodeLog, SpanRecs;
    ReachableInv(s);
    InvParts(s);
    HistoryFromBatch(s);
    AnsweredReach(s, id);
    k := RaisedBatch(s, id);
    DurableAt(s, k);
    BatchRange(s, k);
    LandedSlice(s, k);
  }

  lemma RaisedBatch(s: State, id: nat) returns (k: nat)
    requires RaisedPlaced(s) && DurableInv(s) && id < |s.reach| && s.reach[id] != AckPoint.Applied
    ensures k < |s.locs| <= |s.spans| && InSpan(s.spans[k], id)
    ensures s.locs[k].ino < |s.ker.files| && AllLanded(s.ker.files[s.locs[k].ino], s.locs[k])
  {
    hide PlacedOk, AllLanded, AllSynced;
    assert InSomeSpan(s.spans[..|s.locs|], id);
    k :| 0 <= k < |s.locs| && InSpan(s.spans[..|s.locs|][k], id);
    assert LevelTrue(s, k);
  }

  lemma LandedSlice(s: State, k: nat)
    requires AllWellFormed(s.hist) && k < |s.locs| <= |s.spans| && PlacedOk(s, k) && s.locs[k].len > 0
    requires s.locs[k].ino < |s.ker.files| && AllLanded(s.ker.files[s.locs[k].ino], s.locs[k])
    ensures s.spans[k].first + s.spans[k].n <= |s.hist|
    ensures var data, loc := s.ker.files[s.locs[k].ino].data, s.locs[k];
            loc.off + loc.len <= |data| && data[loc.off..loc.off + loc.len] == Redo(s.spans[k].lo, Slice(s, s.spans[k]))
  {
    hide Redo, WellFormed;
    var f, loc := s.ker.files[s.locs[k].ino], s.locs[k];
    assert LandedAt(f, loc.off + loc.len - 1);
    forall p: nat | loc.off <= p < loc.off + loc.len ensures p < |f.data| && f.data[p] == f.want[p] {
      assert LandedAt(f, p);
    }
  }

  lemma InvParts(s: State)
    requires Inv(s)
    ensures RouteInv(s) && BatchInv(s) && IoInv(s) && DurableInv(s)
    ensures ReplyInv(s) && OutInv(s) && BufferInv(s) && ContentInv(s)
    ensures AllWellFormed(s.hist) && |s.conns| == |s.hist| && |s.reach| == |s.hist| && |s.locs| <= |s.spans|
  {
    hide RouteInv, BatchInv, IoInv, DurableInv, OutInv, BufferInv, ContentInv;
    BatchBasics(s);
  }

  lemma DurableAt(s: State, k: nat)
    requires DurableInv(s) && k < |s.locs|
    ensures PlacedOk(s, k)
  {
    hide PlacedOk, LevelTrue;
  }

  lemma SyncedSlice(f: File, loc: Loc)
    requires AllSynced(f, loc)
    ensures loc.len == 0 || loc.off + loc.len <= |f.synced|
    ensures loc.len > 0 ==> f.synced[loc.off..loc.off + loc.len] == f.want[loc.off..loc.off + loc.len]
  {
    if loc.len > 0 { assert SyncedAt(f, loc.off + loc.len - 1); }
    forall p: nat | loc.off <= p < loc.off + loc.len ensures p < |f.synced| && f.synced[p] == f.want[p] {
      assert SyncedAt(f, p);
    }
  }

  /** A batch's records are the stretch of the global numbering between its watermarks. */
  lemma BatchNumbering(s: State, k: nat)
    requires HistoryOk(s) && SpansOk(s) && k < |s.spans|
    ensures var sp := s.spans[k];
            && s.start <= sp.lo < sp.hi <= s.start + |RecsOf(s.start, s.hist)|
            && sp.first + sp.n <= |s.hist|
            && RecsOf(sp.lo, Slice(s, sp)) == RecsOf(s.start, s.hist)[sp.lo - s.start..sp.hi - s.start]
  {
    hide RecsOf, Exec, WellFormed;
    var sp := s.spans[k];
    assert SpanOk(s, sp);
    var a, b, c := s.hist[..sp.first], Slice(s, sp), s.hist[sp.first + sp.n..];
    assert s.hist == a + b + c;
    SliceWellFormed(s.hist, 0, sp.first);
    SliceWellFormed(s.hist, sp.first, sp.first + sp.n);
    SliceWellFormed(s.hist, 0, sp.first + sp.n);
    SliceWellFormed(s.hist, sp.first + sp.n, |s.hist|);
    assert s.hist[..sp.first + sp.n] == a + b && s.hist[sp.first + sp.n..|s.hist|] == c;
    RecsAppend(s.start, a, b);
    RecsAppend(s.start, a + b, c);
  }

  /** The record of PUT `id` carries exactly the LSN stage 2 assigned to it, and stands in its batch. */
  lemma PutInBatch(s: State, k: nat, id: nat)
    requires HistoryOk(s) && SpansOk(s) && k < |s.spans| && InSpan(s.spans[k], id) && id < |s.hist|
    requires OpOf(s.hist[id]) == Put
    ensures s.spans[k].first + s.spans[k].n <= |s.hist|
    ensures Rec(LsnOf(s, id), s.hist[id]) in RecsOf(s.spans[k].lo, Slice(s, s.spans[k]))
  {
    hide RecsOf, Exec, WellFormed, AllWellFormed, HistoryOk, SpansOk;
    HistoryBasics(s);
    var sp := s.spans[k];
    assert SpanOk(s, sp) by { SpanAt(s, k); }
    var a, b, c := s.hist[..sp.first], s.hist[sp.first..id], s.hist[id + 1..sp.first + sp.n];
    var upto := b + [s.hist[id]];
    assert upto == s.hist[sp.first..id + 1] && Slice(s, sp) == upto + c;
    SliceWellFormed(s.hist, 0, sp.first);
    SliceWellFormed(s.hist, 0, id);
    SliceWellFormed(s.hist, sp.first, id);
    SliceWellFormed(s.hist, sp.first, id + 1);
    SliceWellFormed(s.hist, id + 1, sp.first + sp.n);
    RecsAppend(sp.lo, upto, c);
    RecsAppend(s.start, a, b);
    assert s.hist[..id] == a + b && s.hist[..id + 1] == s.hist[..id] + [s.hist[id]];
    LastPut(s.start, s.hist[..id], s.hist[id]);
    LastPut(sp.lo, b, s.hist[id]);
  }

  lemma SliceWellFormed(bodies: seq<bytes>, i: nat, j: nat)
    requires AllWellFormed(bodies) && i <= j <= |bodies|
    ensures AllWellFormed(bodies[i..j]) && (i < |bodies| ==> WellFormed(bodies[i]) && bodies[i] != [])
  {
    assert forall k :: 0 <= k < |bodies[i..j]| ==> bodies[i..j][k] == bodies[i + k];
  }

  lemma SpanAt(s: State, k: nat)
    requires AllWellFormed(s.hist) && SpansOk(s) && k < |s.spans|
    ensures SpanOk(s, s.spans[k])
  {
    hide SpanOk;
  }

  lemma LastPut(lsn: nat, bodies: seq<bytes>, body: bytes)
    requires AllWellFormed(bodies) && WellFormed(body) && OpOf(body) == Put
    ensures RecsOf(lsn, bodies + [body]) == RecsOf(lsn, bodies) + [Rec(lsn + |RecsOf(lsn, bodies)| + 1, body)]
  {
    hide WellFormed;
    assert (bodies + [body])[..|bodies|] == bodies;
  }

  // ---- File contents ----

  /** No write is pending or in flight. */
  ghost predicate NoWrites(s: State) {
    forall i :: 0 <= i < |Line(s)| ==> !Line(s)[i].work.Write?
  }

  /**
   Whatever the order of completions, short writes and retries: once no write is pending or in flight,
   every segment holds its bytes at open followed by the encoded batches placed in it, in LSN order, each
   starting exactly where the one before it ends. While writes are outstanding, their ranges are disjoint.
   */
  lemma QuietSegments(s: State)
    requires Reachable(s)
    ensures Disjoint(Line(s)) && SpansFit(s)
    ensures forall k :: 0 <= k < |s.locs| ==> GapFree(s, k)
    ensures forall i :: 0 <= i < |s.ker.files| ==> Increasing(RecsIn(s, i, |s.locs|))
    ensures NoWrites(s) ==>
      forall i :: 0 <= i < |s.ker.files| ==>
        s.ker.files[i].data == s.ker.files[i].base + EncodeLog(RecsIn(s, i, |s.locs|))
  {
    hide Reachable, Inv, RouteInv, BatchInv, DurableInv, ReplyInv, OutInv, BufferInv, LineInv, PlanOk, ResultsOk,
         GapFree, RecsIn, Increasing, EncodeLog, HistoryOk, SpansOk, WatermarkOk, LineOf, WellFormed;
    ReachableInv(s);
    InvParts(s);
    HistoryFromBatch(s);
    assert Disjoint(Line(s)) by { LineDisjoint(Line(s), |s.ker.cq|, Active(s)); }
    forall i | 0 <= i < |s.ker.files| ensures Increasing(RecsIn(s, i, |s.locs|)) {
      FileIncreasing(s, i, |s.locs|);
    }
    if NoWrites(s) {
      QuietFileComplete(Line(s), |s.ker.cq|, Active(s));
      forall i | 0 <= i < |s.ker.files|
        ensures s.ker.files[i].data == s.ker.files[i].base + EncodeLog(RecsIn(s, i, |s.locs|))
      {
        assert FileContent(s, i);
      }
    }
  }

  lemma LineDisjoint(line: seq<Slot>, nCq: nat, f: File)
    requires LineInv(line, nCq, f)
    ensures Disjoint(line)
  {
  }

  lemma {:induction false} FileIncreasing(s: State, ino: nat, n: nat)
    requires HistoryOk(s) && SpansOk(s) && SpansFit(s) && n <= |s.locs|
    ensures Increasing(RecsIn(s, ino, n))
    ensures forall i :: 0 <= i < |RecsIn(s, ino, n)| ==> n > 0 && RecsIn(s, ino, n)[i].lsn <= s.spans[n - 1].hi
  {
    hide HistoryOk, RecsOf, WellFormed, SpanRecs;
    if n > 0 {
      FileIncreasing(s, ino, n - 1);
      SpanLsns(s, n - 1);
      assert n > 1 ==> s.spans[n - 2].hi == s.spans[n - 1].lo;
    }
  }

  /** A batch's records are numbered between its watermarks. */
  lemma SpanLsns(s: State, k: nat)
    requires HistoryOk(s) && SpansOk(s) && SpansFit(s) && k < |s.spans|
    ensures Increasing(SpanRecs(s, k)) && s.spans[k].lo < s.spans[k].hi
    ensures forall i :: 0 <= i < |SpanRecs(s, k)| ==> s.spans[k].lo < SpanRecs(s, k)[i].lsn <= s.spans[k].hi
  {
    hide RecsOf, WellFormed, Exec;
    assert SpanOk(s, s.spans[k]);
    RecsNumbered(s.spans[k].lo, Slice(s, s.spans[k]));
  }

  /** Once every batch has been ingested, the log has all of the PUTs. */
  lemma AllIngested(s: State)
    requires BatchInv(s) && SpansFit(s) && IngestedUpTo(s) <= |s.hist| && WritesIn(s.chan) == []
    ensures RecsOf(s.start, s.hist[..IngestedUpTo(s)]) == RecsOf(s.start, s.hist)
  {
    hide BatchInv, RecsOf, WellFormed, Exec;
    HistoryFromBatch(s);
    assert |s.locs| == |s.spans| by { ChannelEmpty(s); }
    var e, n := IngestedUpTo(s), |s.spans|;
    if n > 0 { IngestRecs(s, n - 1); }
    assert s.hist == s.hist[..e] + s.hist[e..];
    RecsAppend(s.start, s.hist[..e], s.hist[e..]);
  }

  lemma ChannelEmpty(s: State)
    requires BatchInv(s) && WritesIn(s.chan) == []
    ensures |s.locs| == |s.spans|
  {
    hide HistoryOk, SpansOk, WritesOk, WaitersOk, BatchAt, LineOf, WritesIn;
  }

  ghost predicate SegmentData(s: State, segs: seq<bytes>) {
    && DirOk(s.ker.files, s.ker.dir)
    && |segs| == |Listed(s.ker.files, s.ker.dir)|
    && forall i :: 0 <= i < |segs| ==> segs[i] == Listed(s.ker.files, s.ker.dir)[i].data
  }

  /**
   End-to-end refinement, in every mode and with retries: once the channel is drained and no write is
   pending or in flight, `recover` on the segments rebuilds exactly the map stage 2 holds, and resumes
   above every LSN used.
   */
  lemma QuietRecovery(states: seq<State>, steps: seq<Step>, snap: Option<bytes>, snapLsn: nat, snapDb: Kv,
                      segs: seq<bytes>)
    requires OrderlyRun(states, steps)
    requires Base(snap) == Some((snapLsn, snapDb)) && CleanStart(states[0], snapLsn, Progress(snapDb, snapLsn))
    requires var s := states[|steps|]; NoWrites(s) && WritesIn(s.chan) == [] && s.lsn < U64 && SegmentData(s, segs)
    ensures var s := states[|steps|];
            RecoverFrom(snap, segs) == Recovered(s.db, if s.lsn == s.start then s.start else s.lsn + 1)
  {
    hide Init, Enabled, Next, CleanStart, Base, ReplayAll, NoWrites, WritesIn, SegmentData, Orderly;
    QuietReplays(states, steps, snapLsn, snapDb, segs);
  }

  /** The segments replay to their end. */
  lemma QuietReplays(states: seq<State>, steps: seq<Step>, snapLsn: nat, snapDb: Kv, segs: seq<bytes>)
    requires OrderlyRun(states, steps) && CleanStart(states[0], snapLsn, Progress(snapDb, snapLsn))
    requires var s := states[|steps|]; NoWrites(s) && WritesIn(s.chan) == [] && s.lsn < U64 && SegmentData(s, segs)
    ensures var s := states[|steps|];
            && 0 < s.start <= s.lsn
            && ReplayAll(segs, snapLsn, Progress(snapDb, snapLsn))
            == Clean(Progress(s.db, if s.lsn == s.start then s.start - 1 else s.lsn))
  {
    hide Init, Enabled, Next, CleanStart, TidyInv, RouteInv, BatchInv, IoInv, DurableInv, ReplyInv, OutInv,
         BufferInv, ContentInv, RecsOf, Exec, WellFormed, ReplayAll, SpansOk, WatermarkOk, NoWrites, WritesIn,
         SegmentData, Orderly;
    var s, n := states[|steps|], |steps|;
    var at0 := Progress(snapDb, snapLsn);
    InvAlways(states, steps, n);
    OrderlyTidy(states, steps, snapLsn, at0);
    HistoryFromBatch(s);
    StartAbove(s, s.ker.dir, snapLsn, snapDb);
    HistoryFits(s, s.ker.dir, snapLsn, at0);
    TidyBasics(s, s.ker.dir, snapLsn, at0);
    AllIngested(s);
    HistoryLoggable(s);
    ReplayQuiet(s, segs, snapLsn, at0);
    assert Flat(Listed(s.ker.files, s.ker.dir)) == RecsOf(s.start, s.hist);
    AbsorbRecs(snapLsn, Progress(s.db0, s.start - 1), s.start, s.hist);
  }

  lemma ReplayQuiet(s: State, segs: seq<bytes>, snapLsn: nat, at0: Progress)
    requires TidyInv(s, s.ker.dir, snapLsn, at0) && HistoryOk(s) && ContentInv(s) && IoInv(s) && NoWrites(s)
    requires s.lsn < U64
    requires SegmentData(s, segs)
    ensures var fs := Listed(s.ker.files, s.ker.dir);
            AllLoggable(Flat(fs))
            && ReplayAll(segs, snapLsn, at0) == Clean(Absorb(Flat(fs), snapLsn, Progress(s.db0, s.start - 1)))
  {
    hide ContentInv, HistoryOk, TidyInv, IoInv, LineOf, ReplayAll, AllPlanned, Flat, Absorb, Loggable, Bases, Listed,
         NewLast, OldFirst, NoWrites;
    ListedPlanned(s, s.ker.dir, s.ker.dir, snapLsn, at0);
    TidyReplay(s, s.ker.dir, snapLsn, at0);
    ListedOldFirst(s.ker.files, s.ker.dir);
    var fs := Listed(s.ker.files, s.ker.dir);
    assert segs == Wants(fs) by {
      forall i | 0 <= i < |fs| ensures fs[i].data == fs[i].want { QuietFile(s, i); }
    }
    ReplayWhole(fs, snapLsn, at0, Progress(s.db0, s.start - 1));
  }

  lemma QuietFile(s: State, i: nat)
    requires IoInv(s) && NoWrites(s) && DirOk(s.ker.files, s.ker.dir) && i < |Listed(s.ker.files, s.ker.dir)|
    ensures Listed(s.ker.files, s.ker.dir)[i].data == Listed(s.ker.files, s.ker.dir)[i].want
  {
    hide LineInv, PlanOk, ResultsOk, LineOf, Listed, Names.Sorted;
    ListedAt(s.ker.files, s.ker.dir, i);
    QuietFileComplete(Line(s), |s.ker.cq|, Active(s));
  }

  // ---- LSN agreement ----

  /**
   Both of stage 3's assertions hold whenever it receives a batch, and the records it is about to encode
   are the stretch of stage 2's numbering that the batch's watermarks name.
   */
  lemma LsnAgreement(s: State)
    requires Reachable(s) && s.chan != [] && s.chan[0].WriteMsg?
    ensures var b := s.chan[0].batch;
            && AllWellFormed(s.hist) && ItemsWellFormed(b.items)
            && b.lo == s.eng.last
            && b.lo + |RecsOf(b.lo, Bodies(b.items))| == b.hi
            && s.start <= b.lo < b.hi <= s.start + |RecsOf(s.start, s.hist)| == s.lsn
            && RecsOf(b.lo, Bodies(b.items)) == RecsOf(s.start, s.hist)[b.lo - s.start..b.hi - s.start]
  {
    hide Reachable, Inv, RouteInv, BatchInv, IoInv, DurableInv, ReplyInv, OutInv, BufferInv, ContentInv, RecsOf,
         WellFormed, SpansOk, Exec;
    ReachableInv(s);
    InvParts(s);
    AssertionsHold(s);
    HistoryFromBatch(s);
    BatchLo(s);
    BatchNumbering(s, |s.locs|);
  }

  // ---- Fsync obligations ----

  /**
   Sync mode: `flush_running` holds exactly while one fsync is pending or in flight, there are never two,
   and nobody is forgotten. Each unfinished write has that fsync behind it or keeps `dirty_bytes` above
   zero, and so do the batches waiting for durability, parked or not.
   */
  lemma FsyncObligations(s: State)
    requires Reachable(s) && s.eng.mode == Sync
    ensures OneFlush(Line(s))
    ensures s.eng.plan.flushing <==> exists j :: 0 <= j < |Line(s)| && Line(s)[j].work.Fsync?
    ensures forall i :: 0 <= i < |Line(s)| && Line(s)[i].work.Write? ==> s.eng.plan.dirty > 0 || FlushBehind(Line(s), i)
    ensures s.eng.awaiting != [] ==> s.eng.plan.dirty > 0 || exists j :: 0 <= j < |Line(s)| && Line(s)[j].work.Fsync?
  {
    hide Reachable, Inv, RouteInv, BatchInv, DurableInv, ReplyInv, OutInv, BufferInv, ContentInv, LineInv, WindowInv,
         ResultsOk, LineOf;
    ReachableInv(s);
    InvParts(s);
    if FlushBehind(Line(s), -1) {
      var j :| 0 <= j < |Line(s)| && -1 < j && Line(s)[j].work.Fsync?;
    }
    if j :| 0 <= j < |Line(s)| && Line(s)[j].work.Fsync? {
      assert FlushBehind(Line(s), -1);
    }
  }

  /** The engine arms an fsync whenever one is owed and none is running, so an obligation is always acted on next. */
  lemma ObligationArms(s: State)
    requires Reachable(s) && s.eng.mode == Sync && s.eng.awaiting != [] && Enabled(s, ArmFsync)
    ensures var t := Next(s, ArmFsync);
            exists j :: 0 <= j < |Line(t)| && Line(t)[j].work.Fsync?
  {
    hide Reachable, LineOf;
    var t := Next(s, ArmFsync);
    ReachableNext(s, ArmFsync);
    FsyncObligations(s);
    FsyncObligations(t);
    assert t.eng.plan.cadence == CadenceOf(Sync) by { CadenceKept(t); }
  }

  lemma CadenceKept(s: State)
    requires Reachable(s)
    ensures s.eng.plan.cadence == CadenceOf(s.eng.mode)
  {
    hide Reachable, Inv, RouteInv, BatchInv, DurableInv, ReplyInv, OutInv, BufferInv, ContentInv, LineInv, WindowInv,
         DutyInv, ResultsOk, LineOf;
    ReachableInv(s);
    InvParts(s);
  }

  /**
   The loss window: the bytes of the active segment that are neither durable nor ahead of an armed fsync
   never outnumber `dirty_bytes`, so in Async mode they are fewer than 1 MiB after each evaluation.
   */
  lemma LossBounded(s: State)
    requires Reachable(s)
    ensures s.eng.seg.ino < |s.ker.files| && |ExposedSet(Line(s), Active(s))| <= s.eng.plan.dirty
    ensures s.eng.mode == Async && Enabled(s, ArmFsync) ==>
              var t := Next(s, ArmFsync);
              t.eng.seg.ino < |t.ker.files| && |ExposedSet(Line(t), Active(t))| < 0x10_0000
  {
    hide Reachable, LineOf, ExposedSet;
    WindowHolds(s);
    if s.eng.mode == Async && Enabled(s, ArmFsync) {
      ReachableNext(s, ArmFsync);
      CadenceKept(s);
      WindowHolds(Next(s, ArmFsync));
    }
  }

  lemma WindowHolds(s: State)
    requires Reachable(s)
    ensures s.eng.seg.ino < |s.ker.files| && WindowInv(Line(s), Active(s), s.eng.plan.dirty)
  {
    hide Reachable, Inv, RouteInv, BatchInv, DurableInv, ReplyInv, OutInv, BufferInv, ContentInv, LineInv, WindowInv,
         DutyInv, ResultsOk, LineOf;
    ReachableInv(s);
    InvParts(s);
  }

  // ---- Rotation ----

  /**
   Rotation safety: every operation in the ring was submitted with the descriptor of the active segment,
   every batch pending or in flight was placed in that segment, and every queued or submitted unlink
   names a segment below it.
   */
  lemma RotationSafety(s: State)
    requires Reachable(s)
    ensures s.eng.seg.start in s.ker.dir && s.ker.dir[s.eng.seg.start] == s.eng.seg.ino
    ensures forall i :: 0 <= i < |s.ker.ops| ==> s.ker.ops[i].fd == s.eng.seg.ino
    ensures forall i :: 0 <= i < |Line(s)| && Line(s)[i].work.Write? ==>
              var w := Line(s)[i].work;
              w.batch.no < |s.locs| && s.locs[w.batch.no] == Loc(s.eng.seg.ino, w.offset, |w.batch.out|)
    ensures forall i :: 0 <= i < |Line(s)| && Line(s)[i].work.Remove? ==> Line(s)[i].work.name < s.eng.seg.start
  {
    hide Reachable, Inv, BatchInv, IoInv, DurableInv, ReplyInv, OutInv, BufferInv, ContentInv, LineOf, BatchAt,
         WellFormed, RecsOf;
    ReachableInv(s);
    InvParts(s);
    forall i | 0 <= i < |Line(s)| && Line(s)[i].work.Write?
      ensures var w := Line(s)[i].work;
              w.batch.no < |s.locs| && s.locs[w.batch.no] == Loc(s.eng.seg.ino, w.offset, |w.batch.out|)
    {
      PlaceOf(s, i);
    }
  }

  // ---- Buffers ----

  /**
   Buffer conservation: each of the 32 buffers is in exactly one place, every buffer at rest is cleared,
   and the waiting list is bounded by their number and used in Sync mode only.
   */
  lemma BufferConservation(s: State)
    requires Reachable(s)
    ensures forall b: nat :: Ring(s)[b] == if b < 32 then 1 else 0
    ensures forall i :: 0 <= i < |s.pool| ==> s.pool[i].Cleared()
    ensures s.held.Some? ==> s.held.value.Cleared()
    ensures |s.eng.awaiting| <= 32 && (s.eng.mode != Sync ==> s.eng.awaiting == [])
  {
    hide Reachable, Inv, RouteInv, IoInv, DurableInv, ReplyInv, OutInv, ContentInv, LineOf, Ring, AllBuffers,
         HistoryOk, SpansOk, ChanOk, WritesOk, BatchAt;
    ReachableInv(s);
    InvParts(s);
    AwaitingBounded(s);
  }

  // ---- Replies ----

  /** Where an unanswered batch still is. */
  ghost predicate UnderWay(s: State, k: nat) {
    || InLine(Line(s), k)
    || Waiting(s.eng.awaiting, k)
    || exists i :: 0 <= i < |WritesIn(s.chan)| && WritesIn(s.chan)[i].no == k
  }

  /**
   Exactly-once replies. Every GET has been answered once. A PUT has been answered at most once, and if
   not yet, its batch is still in the channel, in the line of I/O or waiting for an fsync: no batch is
   recycled before its PUTs are answered. Every reply is the sequential map's, to the right connection,
   at no less than the required level.
   */
  lemma ExactlyOnce(s: State, id: nat)
    requires Reachable(s) && id < |s.hist|
    ensures WellFormed(s.hist[id]) && Count(s.replies, id) <= 1
    ensures OpOf(s.hist[id]) == Get ==> Count(s.replies, id) == 1
    ensures OpOf(s.hist[id]) == Put && Count(s.replies, id) == 0 ==>
              exists k :: 0 <= k < |s.spans| && InSpan(s.spans[k], id) && UnderWay(s, k)
  {
    hide Reachable, Inv, RouteInv, BatchInv, IoInv, DurableInv, BufferInv, ContentInv, LineOf, SpecResp, Count,
         RepliesOk, Rank, InOrderReplies;
    ReachableInv(s);
    InvParts(s);
    assert WellFormed(s.hist[id]);
    assert Count(s.replies, id) == Answers(s.eng.mode, s.hist, s.reach, id);
    RankBounds(s.reach[id]);
    if OpOf(s.hist[id]) == Put && Count(s.replies, id) == 0 {
      assert InSomeSpan(s.spans, id);
      var k :| 0 <= k < |s.spans| && InSpan(s.spans[k], id);
      UnansweredUnderWay(s, k, id);
    }
  }

  lemma RankBounds(a: AckPoint)
    ensures Rank(AckPoint.Applied) <= Rank(a) <= Rank(Durable)
  {
  }

  lemma UnansweredUnderWay(s: State, k: nat, id: nat)
    requires BatchInv(s) && OutInv(s) && AllWellFormed(s.hist) && |s.reach| == |s.hist|
    requires k < |s.spans| && InSpan(s.spans[k], id) && id < |s.hist|
    requires Rank(s.reach[id]) < Rank(Level(s.eng.mode))
    ensures UnderWay(s, k)
  {
    hide BatchInv, LineOf, InLine, Waiting, PutsSpanned, RaisedPlaced, InOrderReplies, Rank;
    if k < |s.locs| {
      assert InLine(Line(s), k) || Waiting(s.eng.awaiting, k) || Served(s, k);
    } else {
      ChannelHolds(s, k);
    }
  }

  lemma ChannelHolds(s: State, k: nat)
    requires BatchInv(s) && |s.locs| <= k < |s.spans|
    ensures k - |s.locs| < |WritesIn(s.chan)| && WritesIn(s.chan)[k - |s.locs|].no == k
  {
    hide HistoryOk, SpansOk, WritesOk, WaitersOk, BatchAt, LineOf, WritesIn;
  }

  /**
   Every reply sent is right: a GET got what the last PUT of its key before it wrote, or what was there at
   start-up, a PUT got Ok, and anything else UnknownOp.
   */
  lemma RepliesRight(s: State, i: nat)
    requires Reachable(s) && i < |s.replies|
    ensures var r := s.replies[i];
            && AllWellFormed(s.hist) && |s.conns| == |s.hist| && r.id < |s.hist|
            && r.conn == s.conns[r.id] && r.resp == SpecResp(s.db0, s.hist, r.id)
            && RightAnswer(s.db0, s.hist, r.id, r.resp)
            && Due(s.eng.mode, s.hist[r.id], r.reached)
  {
    hide Reachable, Inv, RouteInv, BatchInv, IoInv, DurableInv, OutInv, BufferInv, ContentInv, SpecResp, Due,
         WellFormed, CountsOk;
    ReachableInv(s);
    InvParts(s);
    assert ReplyOk(s, s.replies[i]);
    SpecRight(s.db0, s.hist, s.replies[i].id);
  }

  lemma SpecRight(db0: Kv, hist: seq<bytes>, id: nat)
    requires AllWellFormed(hist) && id < |hist|
    ensures RightAnswer(db0, hist, id, SpecResp(db0, hist, id))
  {
    hide WellFormed, Exec, RespTo, RightAnswer;
    AnswerRight(db0, hist, id);
  }

  /**
   Where exactly-once stops: a request with an unknown opcode waits for the mode's level. It is answered
   exactly when its batch reaches that level, and until then its batch is under way, as for a PUT. But a
   batch without a PUT is recycled once applied: there it is answered in NoFsync mode only.
   */
  lemma UnknownAnswered(s: State, id: nat)
    requires Reachable(s) && id < |s.hist| && s.hist[id] != [] && OpOf(s.hist[id]).Unknown?
    ensures |s.reach| == |s.hist|
    ensures Count(s.replies, id) == if Rank(Level(s.eng.mode)) <= Rank(s.reach[id]) then 1 else 0
    ensures !InSomeSpan(s.spans, id) ==> Count(s.replies, id) == if s.eng.mode == NoFsync then 1 else 0
    ensures forall k: nat :: k < |s.spans| && InSpan(s.spans[k], id) && Count(s.replies, id) == 0 ==> UnderWay(s, k)
  {
    hide Reachable, Inv, RouteInv, BatchInv, IoInv, DurableInv, BufferInv, ContentInv, LineOf, SpecResp, Count,
         RepliesOk, NoneDropped, InOrderReplies, UnderWay, InSpan;
    ReachableInv(s);
    InvParts(s);
    assert WellFormed(s.hist[id]);
    assert Count(s.replies, id) == Answers(s.eng.mode, s.hist, s.reach, id);
    NeverRaised(s, id);
    forall k: nat | k < |s.spans| && InSpan(s.spans[k], id) && Count(s.replies, id) == 0 ensures UnderWay(s, k) {
      UnansweredUnderWay(s, k, id);
    }
  }

  lemma NeverRaised(s: State, id: nat)
    requires RaisedPlaced(s) && id < |s.reach|
    ensures s.reach[id] == AckPoint.Applied || InSomeSpan(s.spans, id)
  {
    if k :| 0 <= k < |s.locs| && InSpan(s.spans[..|s.locs|][k], id) {
      assert InSpan(s.spans[k], id);
    }
  }

  // ---- The order of answers after an fsync ----

  ghost predicate Holds(b: Batch, id: nat) { exists i :: 0 <= i < |b.items| && b.items[i].id == id }

  lemma HoldsSent(mode: Mode, b: Batch, reached: AckPoint, k: nat)
    requires ItemsWellFormed(b.items) && k < |Sent(mode, b.items, reached)|
    ensures Holds(b, Sent(mode, b.items, reached)[k].id)
  {
    hide WellFormed, Released, Sent;
    SentOrigin(mode, b.items, reached, k);
  }

  /** Which waiting batch a reply comes from; later replies come from the same batch or a later one. */
  lemma {:induction false} SentAllOrder(mode: Mode, bs: seq<Batch>, reached: AckPoint, x: nat, y: nat)
      returns (a: nat, b: nat)
    requires BatchesWellFormed(bs) && x <= y < |SentAll(mode, bs, reached)|
    ensures a <= b < |bs| && Holds(bs[a], SentAll(mode, bs, reached)[x].id)
    ensures Holds(bs[b], SentAll(mode, bs, reached)[y].id)
  {
    hide Holds, Sent, WellFormed;
    var n := |bs| - 1;
    var m := |SentAll(mode, bs[..n], reached)|;
    if y < m {
      a, b := SentAllOrder(mode, bs[..n], reached, x, y);
    } else {
      b := n;
      HoldsSent(mode, bs[n], reached, y - m);
      if x < m {
        var c: nat;
        a, c := SentAllOrder(mode, bs[..n], reached, x, x);
      } else {
        a := n;
        HoldsSent(mode, bs[n], reached, x - m);
      }
    }
  }

  /** Of two replies the fsync sends, the earlier one's batch had waited at least as long. */
  ghost predicate InTurn(s: State, t: State, x: nat, y: nat)
    requires x < |t.replies| && y < |t.replies|
  {
    exists a: nat, b: nat :: a <= b < |s.eng.awaiting|
      && Holds(s.eng.awaiting[a], t.replies[x].id) && Holds(s.eng.awaiting[b], t.replies[y].id)
  }

  /**
   Batches wait for an fsync in the order in which their writes were reaped, and are answered in that order
   when the fsync is.
   */
  lemma ServedInOrder(s: State)
    requires CanReap(s)
    ensures var t, w := ReapHead(s), s.ker.cq[0].work;
            && (w.Write? ==> s.eng.awaiting <= t.eng.awaiting && |t.eng.awaiting| <= |s.eng.awaiting| + 1)
            && (w.Fsync? ==> t.eng.awaiting == [] && s.replies <= t.replies)
            && (w.Fsync? ==> forall x, y :: |s.replies| <= x <= y < |t.replies| ==> InTurn(s, t, x, y))
  {
    hide Raise, RaiseAll, Remaining, Freed, IsSettled, Holds, SentAll, Sent, InTurn;
    var t, w := ReapHead(s), s.ker.cq[0].work;
    CompleteExactly(w, s.ker.cq[0].res);
    if w.Fsync? {
      var n := |s.replies|;
      forall x, y | n <= x <= y < |t.replies| ensures InTurn(s, t, x, y) {
        var a, b := SentAllOrder(s.eng.mode, s.eng.awaiting, Durable, x - n, y - n);
        TurnFound(s, t, x, y, a, b);
      }
    }
  }

  lemma TurnFound(s: State, t: State, x: nat, y: nat, a: nat, b: nat)
    requires x < |t.replies| && y < |t.replies| && a <= b < |s.eng.awaiting|
    requires Holds(s.eng.awaiting[a], t.replies[x].id) && Holds(s.eng.awaiting[b], t.replies[y].id)
    ensures InTurn(s, t, x, y)
  {
  }

  // ---- NoFsync ----

  /** What connection `c` has received, in order. */
  function Stream(rs: seq<Reply>, c: nat): seq<Resp> {
    if rs == [] then [] else
    Stream(rs[..|rs| - 1], c) + if rs[|rs| - 1].conn == c then [rs[|rs| - 1].resp] else []
  }

  /** What a plain sequential map would answer connection `c`, in request order, for the first `n` requests. */
  function SpecStream(db0: Kv, hist: seq<bytes>, conns: seq<nat>, c: nat, n: nat): seq<Resp>
    requires AllWellFormed(hist) && |conns| == |hist| && n <= |hist|
  {
    if n == 0 then [] else
    SpecStream(db0, hist, conns, c, n - 1) + if conns[n - 1] == c then [SpecResp(db0, hist, n - 1)] else []
  }

  /**
   NoFsync: each connection receives exactly what a sequential map would answer it, in request order. Reply
   number `id` is the right answer to request number `id`.
   */
  lemma NoFsyncSequential(s: State, c: nat)
    requires Reachable(s) && s.eng.mode == NoFsync
    ensures AllWellFormed(s.hist) && |s.conns| == |s.hist|
    ensures Stream(s.replies, c) == SpecStream(s.db0, s.hist, s.conns, c, |s.hist|)
    ensures |s.replies| == |s.hist|
    ensures forall id :: 0 <= id < |s.hist| ==>
              s.replies[id].conn == s.conns[id] && RightAnswer(s.db0, s.hist, id, s.replies[id].resp)
  {
    hide Reachable, Inv, RouteInv, BatchInv, IoInv, DurableInv, BufferInv, ContentInv, ReplyInv, WellFormed, OutInv,
         SpecResp, RightAnswer, Stream, SpecStream;
    ReachableInv(s);
    InvParts(s);
    OrderedReplies(s);
    assert s.replies[..|s.hist|] == s.replies;
    StreamPrefix(s, c, |s.hist|);
    forall id | 0 <= id < |s.hist| ensures RightAnswer(s.db0, s.hist, id, s.replies[id].resp) {
      SpecRight(s.db0, s.hist, id);
    }
  }

  lemma OrderedReplies(s: State)
    requires OutInv(s) && s.eng.mode == NoFsync
    ensures |s.replies| == |s.hist|
    ensures forall id :: 0 <= id < |s.hist| ==>
              s.replies[id].conn == s.conns[id] && s.replies[id].resp == SpecResp(s.db0, s.hist, id)
  {
    hide SpecResp, WellFormed, NoneDropped, PutsSpanned, RaisedPlaced, LineOf;
  }

  lemma {:induction false} StreamPrefix(s: State, c: nat, n: nat)
    requires OutInv(s) && s.eng.mode == NoFsync && n <= |s.hist|
    ensures |s.replies| == |s.hist| && Stream(s.replies[..n], c) == SpecStream(s.db0, s.hist, s.conns, c, n)
  {
    hide SpecResp, WellFormed, NoneDropped, PutsSpanned, RaisedPlaced, LineOf;
    OrderedReplies(s);
    if n > 0 {
      StreamPrefix(s, c, n - 1);
      assert s.replies[..n][..n - 1] == s.replies[..n - 1];
    }
  }
}
