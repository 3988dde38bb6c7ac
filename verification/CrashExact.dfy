/**
 When exactly an answered PUT survives: in Sync mode, whatever was short, interrupted and retried before, it
 is recovered from every crash if and only if every earlier batch of its segment has been fsynced too.
 */
module CrashExact {
  import opened Bytes
  import opened Types
  import opened Wire
  import opened Recovery
  import opened Stage2
  import opened IoLine
  import opened Pipeline
  import opened Names
  import opened Routing
  import opened Batches
  import opened Storage
  import opened Durability
  import opened Replies
  import opened Outstanding
  import opened Content
  import opened CalmSteps
  import opened TornBatches
  import opened CrashReplay
  import opened LogOrder
  import opened CrashFiles
  import opened EndToEnd
  import opened Runs
  import opened CrashRecovery

  /** What recovery returned reaches up to this LSN. */
  ghost predicate Reaches(r: Recovered, lsn: nat) { r.Recovered? && lsn < r.nextLsn }

  /** It does from everything a crash may leave in which the tear is seen. */
  ghost predicate AlwaysReaches(s: State, snap: Option<bytes>, lsn: nat) {
    forall imgs :: AllSurvive(s, imgs) && Legible(s, imgs) ==> Reaches(RecoverFrom(snap, imgs), lsn)
  }

  /** It does from every image a crash leaves that loses batches as a whole. */
  ghost predicate ImagesReach(s: State, snap: Option<bytes>, lsn: nat) {
    forall imgs :: CrashImages(s, imgs) ==> Reaches(RecoverFrom(snap, imgs), lsn)
  }

  /** Every batch before `k` in its segment is fsynced. */
  ghost predicate EarlierSafe(s: State, k: nat)
    requires k < |s.locs|
  {
    forall j :: 0 <= j < k && s.locs[j].ino == s.locs[k].ino ==>
      s.locs[j].ino < |s.ker.files| && AllSynced(s.ker.files[s.locs[j].ino], s.locs[j])
  }

  // ---- If every earlier batch is fsynced ----

  lemma SafeReaches(s: State, snap: Option<bytes>, snapLsn: nat, snapDb: Kv, imgs: seq<bytes>, k: nat, id: nat)
    requires TidyInv(s, s.ker.dir, snapLsn, Progress(snapDb, snapLsn)) && Inv(s) && s.lsn < U64
    requires AllSurvive(s, imgs) && Legible(s, imgs)
    requires Base(snap) == Some((snapLsn, snapDb)) && k < |s.locs| <= |s.spans| && InSpan(s.spans[k], id) && Safe(s, k)
    ensures AllWellFormed(s.hist) && id < |s.hist| && Reaches(RecoverFrom(snap, imgs), LsnOf(s, id))
  {
    hide RouteInv, BatchInv, IoInv, DurableInv, ReplyInv, OutInv, Buffers.BufferInv, ContentInv, HistoryOk, SpansOk,
         WatermarkOk, TidyInv, Base, RecsOf, Exec, WellFormed, ReplayAll, AllSurvive, Legible, ReplaysTo, Loggable,
         RecoverFrom, Safe;
    HistoryFromBatch(s);
    HistoryBasics(s);
    StartAbove(s, s.ker.dir, snapLsn, snapDb);
    var j := ReplayState(s, imgs, snapLsn, Progress(snapDb, snapLsn));
    var m := RecoveredPrefix(snap, imgs, snapLsn, snapDb, s.db0, s.start, s.hist[..IngestedUpTo(s)], j);
    LsnInBatch(s, k, id);
    SpanAbove(s, k);
  }

  lemma SpanAbove(s: State, k: nat)
    requires HistoryOk(s) && SpansOk(s) && k < |s.spans|
    ensures s.start <= s.spans[k].lo < s.spans[k].hi
  {
    hide RecsOf, Exec, WellFormed;
    assert SpanOk(s, s.spans[k]);
  }

  // ---- If one is not ----

  /** What was last fsynced of each segment is one thing a crash may leave. */
  function LastKept(s: State): (imgs: seq<bytes>)
    requires DirOk(s.ker.files, s.ker.dir)
    ensures |imgs| == |Sorted(s.ker.dir.Keys)|
  {
    seq(|Sorted(s.ker.dir.Keys)|, i requires 0 <= i < |Sorted(s.ker.dir.Keys)| =>
      NamedIn(s.ker.dir, i); s.ker.files[s.ker.dir[Sorted(s.ker.dir.Keys)[i]]].synced)
  }

  lemma SyncedImage(s: State, ino: nat)
    requires ino < |s.ker.files| && |s.ker.files[ino].synced| <= |s.ker.files[ino].data|
    ensures CrashImage(s, ino, s.ker.files[ino].synced)
  {
    var f := s.ker.files[ino];
    forall k | 0 <= k < |s.locs| && s.locs[k].ino == ino ensures Reverts(f, f.synced, s.locs[k]) {
    }
  }

  lemma LastKeptImages(s: State)
    requires Shelved(s.ker.files, s.ker.dir, s.eng.seg) && FilesOk(s) && FileOk(Active(s))
    ensures DirOk(s.ker.files, s.ker.dir) && CrashImages(s, LastKept(s))
    ensures |LastKept(s)| > 0 && LastKept(s)[|LastKept(s)| - 1] == Active(s).synced
  {
    hide Shelved, Sorted, CrashImage, Listed, LastKept;
    ShelfIno(s.ker.files, s.ker.dir, s.eng.seg);
    ActiveLast(s.ker.files, s.ker.dir, s.eng.seg);
    var imgs := LastKept(s);
    forall i | 0 <= i < |imgs| ensures ImageAt(s, i, imgs[i]) {
      LastKeptAt(s, i);
      SyncedImage(s, s.ker.dir[Sorted(s.ker.dir.Keys)[i]]);
    }
    LastKeptAt(s, |imgs| - 1);
  }

  lemma LastKeptAt(s: State, i: nat)
    requires DirOk(s.ker.files, s.ker.dir) && i < |Sorted(s.ker.dir.Keys)|
    ensures Sorted(s.ker.dir.Keys)[i] in s.ker.dir
    ensures LastKept(s)[i] == s.ker.files[s.ker.dir[Sorted(s.ker.dir.Keys)[i]]].synced
  {
    hide Sorted;
    NamedIn(s.ker.dir, i);
  }

  /** An earlier batch that is not fsynced is in the active segment. */
  lemma UnsyncedActive(s: State, i: nat)
    requires FilesOk(s) && DurableInv(s) && i < |s.locs|
    requires s.locs[i].ino < |s.ker.files| && !AllSynced(s.ker.files[s.locs[i].ino], s.locs[i])
    ensures s.locs[i].ino == s.eng.seg.ino
  {
    hide DurableInv;
    PlaceFits(s, i);
    if s.locs[i].ino != s.eng.seg.ino { WholeRange(s.ker.files[s.locs[i].ino], s.locs[i]); }
  }

  /** Reading what was last fsynced stops at or before the batch that is not. */
  lemma StopsBefore(s: State, i: nat, k: nat)
    requires HistoryOk(s) && SpansOk(s) && ContentInv(s) && s.eng.seg.ino < |s.ker.files| && Planned(Active(s))
    requires i < k < |s.locs| && s.locs[i].ino == s.eng.seg.ino && !AllSynced(Active(s), s.locs[i])
    ensures SpansFit(s) && ReadCount(s, Active(s).synced) <= |RecsIn(s, s.eng.seg.ino, k)|
  {
    hide HistoryOk, SpansOk, ContentInv, RecsIn, AllSynced, Planned, SolidTo, RecEnd, EndOf;
    var ino, f := s.eng.seg.ino, Active(s);
    var q := ReadCount(s, f.synced);
    FilePrefix(s, ino, i + 1);
    var r := |RecsIn(s, ino, i + 1)|;
    if r <= q {
      BatchRange(s, i);
      RecsPositive(s, i);
      RecEndGrows(f, r, q);
      SolidBelow(f, f.synced, RecEnd(f, r), RecEnd(f, q));
      SolidSynced(f, s.locs[i]);
    }
    RecsInPrefix(s, ino, i + 1, k);
  }

  lemma RecsPositive(s: State, i: nat)
    requires HistoryOk(s) && SpansOk(s) && SpansFit(s) && i < |s.locs|
    ensures |RecsIn(s, s.locs[i].ino, i + 1)| > 0
  {
    hide HistoryOk, SpansOk, SpanRecs, RecsIn;
    LastLsn(s, i);
    RecsInNext(s, s.locs[i].ino, i);
  }

  lemma SolidSynced(f: File, loc: Loc)
    requires SolidTo(f, f.synced, loc.off + loc.len)
    ensures AllSynced(f, loc)
  {
    var h := loc.off + loc.len;
    forall p: nat | loc.off <= p < h ensures p < |f.want| && SyncedAt(f, p) {
      assert f.synced[..h][p] == f.want[..h][p];
    }
  }

  lemma LsnAbove(s: State, k: nat, id: nat)
    requires HistoryOk(s) && SpansOk(s) && k < |s.spans| && InSpan(s.spans[k], id) && id < |s.hist| && IsPut(s.hist[id])
    ensures s.start <= s.spans[k].lo < LsnOf(s, id)
  {
    hide RecsOf, Exec, WellFormed;
    assert SpanOk(s, s.spans[k]);
    RecsMonotone(s.start, s.hist, s.spans[k].first, id);
    PutCounts(s.start, s.hist, id);
  }

  /** Replay of what was last fsynced ends before the batch. */
  lemma ReplayStops(s: State, i: nat, k: nat, id: nat, snapLsn: nat, at0: Progress) returns (j: nat)
    requires TidyInv(s, s.ker.dir, snapLsn, at0) && Inv(s) && s.lsn < U64 && SyncedBatch(s, k, id)
    requires s.eng.seg.ino < |s.ker.files| && TearSeen(Active(s), Active(s).synced)
    requires i < k && s.locs[i].ino == s.locs[k].ino && !AllSynced(s.ker.files[s.locs[i].ino], s.locs[i])
    ensures SpansFit(s) && IngestedUpTo(s) <= |s.hist| && Loggables(s.start, s.hist[..IngestedUpTo(s)])
    ensures DirOk(s.ker.files, s.ker.dir) && CrashImages(s, LastKept(s))
    ensures AllSurvive(s, LastKept(s)) && Legible(s, LastKept(s))
    ensures AllLoggable(RecsOf(s.start, s.hist[..IngestedUpTo(s)])) && j <= |RecsOf(s.start, s.hist[..IngestedUpTo(s)])|
    ensures ReplaysTo(ReplayAll(LastKept(s), snapLsn, at0), RecsOf(s.start, s.hist[..IngestedUpTo(s)]),
                      j, snapLsn, Progress(s.db0, s.start - 1))
    ensures j <= s.spans[k].lo - s.start
  {
    hide RouteInv, BatchInv, IoInv, DurableInv, ReplyInv, OutInv, Buffers.BufferInv, ContentInv, HistoryOk, SpansOk,
         WatermarkOk, TidyInv, AllSurvive, CrashImages, Shelved, NewLast, BaseSafe, AllPlanned, ReplayAll, ReplaysTo,
         Listed, Flat, Loggable, ReadCount, RecsOf, Sealed, Bases, FilesOk, FileOk, WellFormed, AllSynced, LastKept,
         RecsIn, InSpan, TearSeen, Planned, Survives;
    var dir := s.ker.dir;
    HistoryFromBatch(s);
    FilesSound(s);
    TidyBasics(s, dir, snapLsn, at0);
    HistoryFits(s, dir, snapLsn, at0);
    ListedPlanned(s, dir, dir, snapLsn, at0);
    TidyReplay(s, dir, snapLsn, at0);
    ListedActive(s.ker.files, dir, s.eng.seg);
    LastKeptImages(s);
    UnsyncedActive(s, i);
    ImagesSurvive(s, LastKept(s));
    ReplayListing(s, LastKept(s), snapLsn, at0, Progress(s.db0, s.start - 1));
    ActivePlanned(s, dir, snapLsn, at0);
    StopsBefore(s, i, k);
    ActivePosition(s, dir, k, snapLsn, at0);
    j := |Flat(Sealed(s.ker.files, dir))| + ReadCount(s, Active(s).synced);
  }

  lemma HoleFails(s: State, snap: Option<bytes>, snapLsn: nat, snapDb: Kv, i: nat, k: nat, id: nat)
    requires TidyInv(s, s.ker.dir, snapLsn, Progress(snapDb, snapLsn)) && Inv(s) && s.lsn < U64
    requires s.eng.seg.ino < |s.ker.files| && TearSeen(Active(s), Active(s).synced)
    requires Base(snap) == Some((snapLsn, snapDb)) && SyncedBatch(s, k, id) && AllWellFormed(s.hist) && id < |s.hist|
    requires IsPut(s.hist[id])
    requires i < k && s.locs[i].ino == s.locs[k].ino && !AllSynced(s.ker.files[s.locs[i].ino], s.locs[i])
    ensures !AlwaysReaches(s, snap, LsnOf(s, id)) && !ImagesReach(s, snap, LsnOf(s, id))
  {
    hide RouteInv, BatchInv, IoInv, DurableInv, ReplyInv, OutInv, Buffers.BufferInv, ContentInv, HistoryOk, SpansOk,
         WatermarkOk, TidyInv, Base, AllSynced, RecsOf, Exec, WellFormed, ReplayAll, CrashImages, AllSurvive, Legible,
         ReplaysTo, Loggable, RecoverFrom, LastKept, InSpan, IsPut, TearSeen;
    HistoryFromBatch(s);
    StartAbove(s, s.ker.dir, snapLsn, snapDb);
    var j := ReplayStops(s, i, k, id, snapLsn, Progress(snapDb, snapLsn));
    var m := RecoveredPrefix(snap, LastKept(s), snapLsn, snapDb, s.db0, s.start, s.hist[..IngestedUpTo(s)], j);
    LsnAbove(s, k, id);
    assert !Reaches(RecoverFrom(snap, LastKept(s)), LsnOf(s, id));
  }

  // ---- Exactly ----

  /** The batch of an answered PUT, and what holds of it if every earlier batch of its segment is fsynced or not. */
  lemma ExactlySafe(states: seq<State>, steps: seq<Step>, snap: Option<bytes>, snapLsn: nat, snapDb: Kv, id: nat)
      returns (k: nat)
    requires OrderlyRun(states, steps)
    requires Base(snap) == Some((snapLsn, snapDb)) && CleanStart(states[0], snapLsn, Progress(snapDb, snapLsn))
    requires var s := states[|steps|];
             && s.lsn < U64 && s.eng.mode == Sync && id < |s.hist| && IsPut(s.hist[id]) && Answered(s, id)
             && s.eng.seg.ino < |s.ker.files| && TearSeen(Active(s), Active(s).synced)
    ensures var s := states[|steps|];
            && AllWellFormed(s.hist) && SyncedBatch(s, k, id)
            && (EarlierSafe(s, k) ==> AlwaysReaches(s, snap, LsnOf(s, id)))
            && (!EarlierSafe(s, k) ==> !AlwaysReaches(s, snap, LsnOf(s, id)) && !ImagesReach(s, snap, LsnOf(s, id)))
  {
    hide Init, Enabled, Next, CleanStart, TidyInv, RouteInv, BatchInv, IoInv, DurableInv, OutInv, Buffers.BufferInv,
         ReplyInv, HistoryOk, SpansOk, WatermarkOk, ContentInv, Base, RecsOf, Exec, WellFormed, CrashImages, AllSurvive,
         Legible, RecoverFrom, Answered, Reaches, AllSynced, InSpan, Orderly, TearSeen;
    var s, n := states[|steps|], |steps|;
    OrderlyTidy(states, steps, snapLsn, Progress(snapDb, snapLsn));
    InvAlways(states, steps, n);
    HistoryFromBatch(s);
    HistoryBasics(s);
    AnsweredSynced(s, id);
    k :| k >= 0 && SyncedBatch(s, k, id);
    if EarlierSafe(s, k) {
      assert Safe(s, k);
      forall imgs | AllSurvive(s, imgs) && Legible(s, imgs) ensures Reaches(RecoverFrom(snap, imgs), LsnOf(s, id)) {
        SafeReaches(s, snap, snapLsn, snapDb, imgs, k, id);
      }
    } else {
      var j :| 0 <= j < k && s.locs[j].ino == s.locs[k].ino && !AllSynced(s.ker.files[s.locs[j].ino], s.locs[j]);
      HoleFails(s, snap, snapLsn, snapDb, j, k, id);
    }
  }

  /**
   An answered PUT is recovered, from everything a crash may leave in which the tear is seen, if and only if
   every earlier batch of its segment is fsynced. Writes may have been short, interrupted and retried, and
   the crash may do anything to bytes that are not fsynced; that the tear is seen in what was last fsynced is
   needed for the `only if` alone.
   */
  lemma SurvivesLegibly(states: seq<State>, steps: seq<Step>, snap: Option<bytes>, snapLsn: nat, snapDb: Kv, id: nat)
      returns (k: nat)
    requires OrderlyRun(states, steps)
    requires Base(snap) == Some((snapLsn, snapDb)) && CleanStart(states[0], snapLsn, Progress(snapDb, snapLsn))
    requires var s := states[|steps|];
             && s.lsn < U64 && s.eng.mode == Sync && id < |s.hist| && IsPut(s.hist[id]) && Answered(s, id)
             && s.eng.seg.ino < |s.ker.files| && TearSeen(Active(s), Active(s).synced)
    ensures var s := states[|steps|];
            && AllWellFormed(s.hist) && SyncedBatch(s, k, id)
            && (AlwaysReaches(s, snap, LsnOf(s, id)) <==> EarlierSafe(s, k))
  {
    hide Init, Enabled, Next, CleanStart, Base, RecsOf, WellFormed, Answered, Orderly, TearSeen, AlwaysReaches,
         ImagesReach, EarlierSafe;
    k := ExactlySafe(states, steps, snap, snapLsn, snapDb, id);
  }

  /**
   The same without any assumption on the checksum, for crashes that lose batches as a whole or cut the file
   off. No batch is torn at the crash, though a short write may be unfinished at the end of the file.
   */
  lemma SurvivesExactly(states: seq<State>, steps: seq<Step>, snap: Option<bytes>, snapLsn: nat, snapDb: Kv, id: nat)
      returns (k: nat)
    requires OrderlyRun(states, steps) && NoTorn(states[|steps|])
    requires Base(snap) == Some((snapLsn, snapDb)) && CleanStart(states[0], snapLsn, Progress(snapDb, snapLsn))
    requires var s := states[|steps|];
             s.lsn < U64 && s.eng.mode == Sync && id < |s.hist| && IsPut(s.hist[id]) && Answered(s, id)
    ensures var s := states[|steps|];
            && AllWellFormed(s.hist) && SyncedBatch(s, k, id)
            && (ImagesReach(s, snap, LsnOf(s, id)) <==> EarlierSafe(s, k))
  {
    hide Init, Enabled, Next, CleanStart, TidyInv, Inv, Base, RecsOf, WellFormed, CrashImages, AllSurvive, Legible,
         RecoverFrom, Answered, Reaches, Orderly, TearSeen, NoTorn, AllSynced, EarlierSafe;
    var s, at0 := states[|steps|], Progress(snapDb, snapLsn);
    OrderlyTidy(states, steps, snapLsn, at0);
    InvAlways(states, steps, |steps|);
    SyncedLegible(s, snapLsn, at0);
    k := ExactlySafe(states, steps, snap, snapLsn, snapDb, id);
    forall imgs | CrashImages(s, imgs) ensures AllSurvive(s, imgs) && Legible(s, imgs) {
      NoTornLegible(s, s.ker.dir, imgs, snapLsn, at0);
    }
  }

  lemma SyncedLegible(s: State, snapLsn: nat, at0: Progress)
    requires TidyInv(s, s.ker.dir, snapLsn, at0) && Inv(s) && s.lsn < U64 && NoTorn(s)
    ensures s.eng.seg.ino < |s.ker.files| && TearSeen(Active(s), Active(s).synced)
  {
    hide RouteInv, BatchInv, IoInv, DurableInv, ReplyInv, OutInv, Buffers.BufferInv, ContentInv, TidyInv, NoTorn,
         CrashImages, Shelved, TearSeen, FilesOk, FileOk, LastKept;
    FilesSound(s);
    TidyBasics(s, s.ker.dir, snapLsn, at0);
    LastKeptImages(s);
    NoTornLegible(s, s.ker.dir, LastKept(s), snapLsn, at0);
  }
}
