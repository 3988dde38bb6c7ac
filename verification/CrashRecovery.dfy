/**
 Crash recovery of the whole system: whatever a crash leaves of the segments, `recover` rebuilds the map
 after a prefix of the request history, and in Sync mode that prefix has every PUT already answered.
 */
module CrashRecovery {
  import opened Bytes
  import opened Types
  import opened Wire
  import opened WalFormat
  import opened Recovery
  import opened Stage2
  import opened Acker
  import opened IoLine
  import opened WalCore
  import opened Pipeline
  import opened Names
  import opened Routing
  import opened Batches
  import opened Storage
  import opened Durability
  import opened Replies
  import opened Outstanding
  import opened Content
  import opened SmoothRun
  import opened CalmSteps
  import opened SteadySteps
  import opened TornBatches
  import opened CrashReplay
  import opened LogOrder
  import opened CrashFiles
  import opened EndToEnd
  import opened Runs

  // ---- What has been answered is durable ----

  ghost predicate Answered(s: State, id: nat) {
    exists i :: 0 <= i < |s.replies| && s.replies[i].id == id
  }

  lemma {:induction false} AnsweredCounts(rs: seq<Reply>, i: nat)
    requires i < |rs|
    ensures Count(rs, rs[i].id) >= 1
  {
    if i < |rs| - 1 { AnsweredCounts(rs[..|rs| - 1], i); }
  }

  lemma AnsweredReach(s: State, id: nat)
    requires ReplyInv(s) && Answered(s, id)
    ensures |s.reach| == |s.hist| && id < |s.hist| && Due(s.eng.mode, s.hist[id], s.reach[id])
  {
    hide WellFormed, Due, RepliesOk, Count;
    var i :| 0 <= i < |s.replies| && s.replies[i].id == id;
    AnsweredCounts(s.replies, i);
    assert Count(s.replies, id) == Answers(s.eng.mode, s.hist, s.reach, id);
  }

  ghost predicate SyncedBatch(s: State, k: nat, id: nat) {
    && k < |s.locs| <= |s.spans| && InSpan(s.spans[k], id)
    && s.locs[k].ino < |s.ker.files| && AllSynced(s.ker.files[s.locs[k].ino], s.locs[k])
  }

  /** Sync mode: every byte of the batch of an answered PUT has been made durable by a completed fsync. */
  lemma AnsweredSynced(s: State, id: nat)
    requires Inv(s) && s.eng.mode == Sync && Answered(s, id) && id < |s.hist| && OpOf(s.hist[id]) == Put
    ensures exists k: nat :: SyncedBatch(s, k, id)
  {
    hide RouteInv, BatchInv, IoInv, ContentInv, Buffers.BufferInv, ReplyInv, NoneDropped, InOrderReplies, PutsSpanned,
         PlacedOk, AllSynced, AllLanded;
    AnsweredReach(s, id);
    assert s.reach[id] == Durable;
    assert InSomeSpan(s.spans[..|s.locs|], id);
    var k :| 0 <= k < |s.locs| && InSpan(s.spans[..|s.locs|][k], id);
    assert LevelTrue(s, k);
    assert SyncedBatch(s, k, id);
  }

  // ---- Where a batch's records are in the log ----

  /** Batch `k` ends, in its file, with the record of its high watermark. */
  lemma BatchInFile(s: State, k: nat)
    requires HistoryOk(s) && SpansOk(s) && ContentInv(s) && k < |s.locs|
    ensures SpansFit(s) && s.locs[k].ino < |s.ker.files|
    ensures var f, q := s.ker.files[s.locs[k].ino], |RecsIn(s, s.locs[k].ino, k + 1)|;
            && q == |RecsIn(s, s.locs[k].ino, k)| + (s.spans[k].hi - s.spans[k].lo)
            && 0 < q <= |f.recs| && f.recs[q - 1].lsn == s.spans[k].hi
  {
    hide HistoryOk, SpansOk, ContentInv, RecsOf, WellFormed, EncodeLog, SpanRecs, RecsIn;
    var ino := s.locs[k].ino;
    ContentAt(s, k);
    LastLsn(s, k);
    FilePrefix(s, ino, k + 1);
    RecsInNext(s, ino, k);
    var q := |RecsIn(s, ino, k + 1)|;
    assert s.ker.files[ino].recs[..q][q - 1] == s.ker.files[ino].recs[q - 1];
  }

  lemma {:induction false} FlatHas(fs: seq<File>, x: nat, y: nat)
    requires x < |fs| && y < |fs[x].recs|
    ensures fs[x].recs[y] in Flat(fs)
  {
    if x > 0 {
      FlatHas(fs[1..], x - 1, y);
    }
  }

  /** The segments listed before the active one. */
  function Sealed(files: seq<File>, dir: map<nat, nat>): seq<File>
    requires DirOk(files, dir) && |Listed(files, dir)| > 0
  {
    Listed(files, dir)[..|Listed(files, dir)| - 1]
  }

  /** The listed log, split into the sealed segments and the active one. */
  lemma ListedActive(files: seq<File>, dir: map<nat, nat>, seg: Segment)
    requires Shelved(files, dir, seg)
    ensures DirOk(files, dir) && seg.ino < |files| && |Listed(files, dir)| > 0
    ensures Listed(files, dir) == Sealed(files, dir) + [files[seg.ino]]
    ensures Flat(Listed(files, dir)) == Flat(Sealed(files, dir)) + files[seg.ino].recs
  {
    hide Shelved, Listed, Flat, Sorted;
    ShelfIno(files, dir, seg);
    ActiveLast(files, dir, seg);
    FlatAppend(Sealed(files, dir), [files[seg.ino]]);
    FlatOne(files[seg.ino]);
  }

  /** The records placed so far are numbered consecutively from `start + 1`. */
  lemma LogNumbered(s: State, full: map<nat, nat>, snapLsn: nat, at0: Progress)
    requires TidyInv(s, full, snapLsn, at0)
    ensures DirOk(s.ker.files, full)
    ensures var log := Flat(Listed(s.ker.files, full)); forall x :: 0 <= x < |log| ==> log[x].lsn == s.start + 1 + x
  {
    hide RecsOf, WellFormed, Flat, ReplayAll, NewLast, Listed, Bases, BaseSafe, PlacesNamed, Submap, Shelved;
    TidyBasics(s, full, snapLsn, at0);
    RecsNumbered(s.start, s.hist[..IngestedUpTo(s)]);
  }

  lemma LsnPosition(pre: seq<Rec>, all: seq<Rec>, r: Rec, start: nat)
    requires pre <= all && r in pre && forall z :: 0 <= z < |all| ==> all[z].lsn == start + 1 + z
    ensures r.lsn - start <= |pre|
  {
    var z :| 0 <= z < |pre| && pre[z] == r;
    assert all[z] == r;
  }

  /** A file other than the active one is listed before it. */
  lemma SealedListed(files: seq<File>, dir: map<nat, nat>, seg: Segment, ino: nat) returns (x: nat)
    requires Shelved(files, dir, seg) && ino in dir.Values && ino != seg.ino
    ensures DirOk(files, dir) && ino < |files| && |Listed(files, dir)| > 0
    ensures x < |Sealed(files, dir)| && Sealed(files, dir)[x] == files[ino]
  {
    hide Sorted, Listed, IsMax;
    ActiveLast(files, dir, seg);
    ShelfIno(files, dir, seg);
    var n :| n in dir && dir[n] == ino;
    x := IndexOf(dir, n);
    ListedAt(files, dir, x);
  }

  lemma IndexOf(dir: map<nat, nat>, n: nat) returns (x: nat)
    requires n in dir
    ensures x < |Sorted(dir.Keys)| && Sorted(dir.Keys)[x] == n
  {
    hide Sorted;
    assert n in Sorted(dir.Keys);
    x :| 0 <= x < |Sorted(dir.Keys)| && Sorted(dir.Keys)[x] == n;
  }

  /** A batch placed in a sealed segment precedes everything in the active one. */
  lemma BatchSealed(s: State, full: map<nat, nat>, k: nat, snapLsn: nat, at0: Progress)
    requires TidyInv(s, full, snapLsn, at0) && HistoryOk(s) && SpansOk(s) && ContentInv(s)
    requires k < |s.locs| && s.locs[k].ino != s.eng.seg.ino
    ensures DirOk(s.ker.files, full) && |Listed(s.ker.files, full)| > 0
    ensures s.spans[k].hi - s.start <= |Flat(Sealed(s.ker.files, full))|
  {
    hide HistoryOk, SpansOk, ContentInv, TidyInv, Flat, Listed, RecsIn, Shelved, BaseSafe, Sealed;
    BatchInFile(s, k);
    TidyBasics(s, full, snapLsn, at0);
    ListedActive(s.ker.files, full, s.eng.seg);
    LogNumbered(s, full, snapLsn, at0);
    var ino := s.locs[k].ino;
    var x := SealedListed(s.ker.files, full, s.eng.seg, ino);
    var pre, q := Sealed(s.ker.files, full), |RecsIn(s, ino, k + 1)|;
    FlatHas(pre, x, q - 1);
    LsnPosition(Flat(pre), Flat(Listed(s.ker.files, full)), pre[x].recs[q - 1], s.start);
  }

  /** A batch in the active segment stands, in the log, right between its watermarks. */
  lemma ActivePosition(s: State, full: map<nat, nat>, k: nat, snapLsn: nat, at0: Progress)
    requires TidyInv(s, full, snapLsn, at0) && HistoryOk(s) && SpansOk(s) && ContentInv(s)
    requires k < |s.locs| && s.locs[k].ino == s.eng.seg.ino
    ensures DirOk(s.ker.files, full) && |Listed(s.ker.files, full)| > 0 && SpansFit(s)
    ensures s.spans[k].lo - s.start == |Flat(Sealed(s.ker.files, full))| + |RecsIn(s, s.locs[k].ino, k)|
    ensures s.spans[k].hi - s.start == |Flat(Sealed(s.ker.files, full))| + |RecsIn(s, s.locs[k].ino, k + 1)|
  {
    hide HistoryOk, SpansOk, ContentInv, TidyInv, Flat, Listed, RecsIn, Shelved, BaseSafe, Sealed;
    BatchInFile(s, k);
    TidyBasics(s, full, snapLsn, at0);
    ListedActive(s.ker.files, full, s.eng.seg);
    LogNumbered(s, full, snapLsn, at0);
    var q := |RecsIn(s, s.locs[k].ino, k + 1)|;
    var x := |Flat(Sealed(s.ker.files, full))| + q - 1;
    assert Flat(Listed(s.ker.files, full))[x] == Active(s).recs[q - 1];
  }

  // ---- The conditions of replay ----

  lemma HistoryLoggable(s: State)
    requires HistoryOk(s) && s.lsn < U64
    ensures Loggables(s.start, s.hist)
  {
    hide RecsOf, Exec, WellFormed;
  }

  /** All records placed fit their fields, so every file is one replay can read back. */
  lemma HistoryFits(s: State, full: map<nat, nat>, snapLsn: nat, at0: Progress)
    requires TidyInv(s, full, snapLsn, at0) && HistoryOk(s) && s.lsn < U64
    ensures DirOk(s.ker.files, full) && SpansFit(s) && IngestedUpTo(s) <= |s.hist|
    ensures Loggables(s.start, s.hist[..IngestedUpTo(s)]) && AllLoggable(Flat(Listed(s.ker.files, full)))
    ensures Flat(Listed(s.ker.files, full)) == RecsOf(s.start, s.hist[..IngestedUpTo(s)])
  {
    hide RecsOf, WellFormed, Flat, ReplayAll, NewLast, Exec, Listed, Loggable, Bases, BaseSafe, PlacesNamed, Submap,
         Shelved;
    var e := IngestedUpTo(s);
    RecsMonotone(s.start, s.hist, e, |s.hist|);
    assert s.hist[..|s.hist|] == s.hist;
    RecsLoggable(s.start, s.hist[..e]);
    TidyBasics(s, full, snapLsn, at0);
  }

  lemma FilePlanned(s: State, full: map<nat, nat>, n: nat, snapLsn: nat, at0: Progress)
    requires TidyInv(s, full, snapLsn, at0) && HistoryOk(s) && ContentInv(s) && s.lsn < U64 && n in full
    ensures DirOk(s.ker.files, full) && Planned(s.ker.files[full[n]])
  {
    hide HistoryOk, ContentInv, TidyInv, Flat, Listed, Loggable, EncodeLog, Sorted, RecsOf, RecsIn;
    HistoryFits(s, full, snapLsn, at0);
    var x := IndexOf(full, n);
    ListedAt(s.ker.files, full, x);
    var fs := Listed(s.ker.files, full);
    forall y | 0 <= y < |fs[x].recs| ensures Loggable(fs[x].recs[y]) {
      FlatHas(fs, x, y);
    }
    ContentFile(s, full[n]);
  }

  lemma ListedPlanned(s: State, full: map<nat, nat>, dir: map<nat, nat>, snapLsn: nat, at0: Progress)
    requires TidyInv(s, full, snapLsn, at0) && HistoryOk(s) && ContentInv(s) && s.lsn < U64 && Submap(dir, full)
    ensures DirOk(s.ker.files, dir) && AllPlanned(Listed(s.ker.files, dir))
  {
    hide HistoryOk, ContentInv, TidyInv, Listed, Sorted, Planned;
    TidyBasics(s, full, snapLsn, at0);
    var fs := Listed(s.ker.files, dir);
    forall i | 0 <= i < |fs| ensures Planned(fs[i]) {
      ListedAt(s.ker.files, dir, i);
      FilePlanned(s, full, Sorted(dir.Keys)[i], snapLsn, at0);
    }
  }

  /** What the directory may hold after a crash: of each segment, in listing order, something that survives. */
  ghost predicate AllSurvive(s: State, imgs: seq<bytes>) {
    && DirOk(s.ker.files, s.ker.dir)
    && |imgs| == |Sorted(s.ker.dir.Keys)|
    && forall i :: 0 <= i < |imgs| ==> SurvivesAt(s, i, imgs[i])
  }

  ghost predicate SurvivesAt(s: State, i: nat, img: bytes)
    requires DirOk(s.ker.files, s.ker.dir) && i < |Sorted(s.ker.dir.Keys)|
  {
    Sorted(s.ker.dir.Keys)[i] in s.ker.dir && Survives(s.ker.files[s.ker.dir[Sorted(s.ker.dir.Keys)[i]]], img)
  }

  /**
   The tear in the active segment is seen: what stands where the first record the image lacks should be
   fails to decode. For a record damaged by the crash this is up to its length field and its checksum.
   */
  ghost predicate Legible(s: State, imgs: seq<bytes>) {
    s.eng.seg.ino < |s.ker.files| && imgs != [] && TearSeen(Active(s), imgs[|imgs| - 1])
  }

  /** What the directory holds after a crash that loses batches as a whole: an image of each segment. */
  ghost predicate CrashImages(s: State, imgs: seq<bytes>) {
    && DirOk(s.ker.files, s.ker.dir)
    && |imgs| == |Sorted(s.ker.dir.Keys)|
    && forall i :: 0 <= i < |imgs| ==> ImageAt(s, i, imgs[i])
  }

  ghost predicate ImageAt(s: State, i: nat, img: bytes)
    requires DirOk(s.ker.files, s.ker.dir) && i < |Sorted(s.ker.dir.Keys)|
  {
    Sorted(s.ker.dir.Keys)[i] in s.ker.dir && CrashImage(s, s.ker.dir[Sorted(s.ker.dir.Keys)[i]], img)
  }

  lemma AllFilesOk(s: State, ino: nat)
    requires FilesOk(s) && FileOk(Active(s)) && ino < |s.ker.files|
    ensures FileOk(s.ker.files[ino])
  {
  }

  lemma ImagesSurvive(s: State, imgs: seq<bytes>)
    requires FilesOk(s) && FileOk(Active(s)) && CrashImages(s, imgs)
    ensures AllSurvive(s, imgs)
  {
    hide Sorted, FilesOk, FileOk, CrashImage, Survives;
    forall i | 0 <= i < |imgs| ensures SurvivesAt(s, i, imgs[i]) {
      assert ImageAt(s, i, imgs[i]);
      var ino := s.ker.dir[Sorted(s.ker.dir.Keys)[i]];
      AllFilesOk(s, ino);
      ImageSurvives(s, ino, imgs[i]);
    }
  }

  lemma WholeKept(f: File, img: bytes)
    requires Whole(f) && Survives(f, img)
    ensures img == f.want
  {
    assert forall p: nat :: p < |f.want| ==> SyncedAt(f, p);
  }

  /** Sealed segments survive whole. */
  lemma ImagesSplit(s: State, imgs: seq<bytes>)
    requires Shelved(s.ker.files, s.ker.dir, s.eng.seg) && FilesOk(s) && AllSurvive(s, imgs)
    ensures |imgs| > 0 && |Listed(s.ker.files, s.ker.dir)| > 0 && Survives(Active(s), imgs[|imgs| - 1])
    ensures imgs == Wants(Sealed(s.ker.files, s.ker.dir)) + [imgs[|imgs| - 1]]
  {
    hide Shelved, Sorted, Listed, Survives;
    ShelfIno(s.ker.files, s.ker.dir, s.eng.seg);
    ActiveLast(s.ker.files, s.ker.dir, s.eng.seg);
    var fs, n := Listed(s.ker.files, s.ker.dir), |imgs| - 1;
    assert SurvivesAt(s, n, imgs[n]);
    forall i | 0 <= i < n ensures imgs[i] == Wants(fs[..n])[i] {
      OthersOld(s.ker.files, s.ker.dir, s.eng.seg, i);
      ListedAt(s.ker.files, s.ker.dir, i);
      assert SurvivesAt(s, i, imgs[i]);
      WholeKept(s.ker.files[s.ker.dir[Sorted(s.ker.dir.Keys)[i]]], imgs[i]);
    }
  }

  /** The last image is one of the active segment. */
  lemma LastImage(s: State, imgs: seq<bytes>)
    requires Shelved(s.ker.files, s.ker.dir, s.eng.seg) && CrashImages(s, imgs)
    ensures |imgs| > 0 && s.eng.seg.ino < |s.ker.files| && CrashImage(s, s.eng.seg.ino, imgs[|imgs| - 1])
  {
    hide Shelved, Sorted, Listed, CrashImage;
    ShelfIno(s.ker.files, s.ker.dir, s.eng.seg);
    ActiveLast(s.ker.files, s.ker.dir, s.eng.seg);
    assert ImageAt(s, |imgs| - 1, imgs[|imgs| - 1]);
  }

  /**
   If no batch is torn and the crash loses batches as a whole, the tear is seen, whatever the checksum.
   */
  lemma NoTornLegible(s: State, full: map<nat, nat>, imgs: seq<bytes>, snapLsn: nat, at0: Progress)
    requires TidyInv(s, full, snapLsn, at0) && Inv(s) && NoTorn(s) && s.lsn < U64 && CrashImages(s, imgs)
    ensures AllSurvive(s, imgs) && Legible(s, imgs)
  {
    hide RouteInv, BatchInv, IoInv, DurableInv, ReplyInv, OutInv, Buffers.BufferInv, ContentInv, HistoryOk, SpansOk,
         WatermarkOk, TidyInv, NoTorn, CrashImages, AllSurvive, Shelved, NewLast, BaseSafe, Planned, TearSeen, FilesOk,
         FileOk, CrashImage, LineOf, Submap, PlacesNamed;
    HistoryFromBatch(s);
    FilesSound(s);
    TidyBasics(s, full, snapLsn, at0);
    ShelvedNow(s, full, snapLsn, at0);
    ActivePlanned(s, full, snapLsn, at0);
    ImagesSurvive(s, imgs);
    LastImage(s, imgs);
    NoTornSeen(s, imgs[|imgs| - 1]);
  }

  lemma ActivePlanned(s: State, full: map<nat, nat>, snapLsn: nat, at0: Progress)
    requires TidyInv(s, full, snapLsn, at0) && HistoryOk(s) && ContentInv(s) && s.lsn < U64
    ensures s.eng.seg.ino < |s.ker.files| && Planned(Active(s))
  {
    hide TidyInv, HistoryOk, ContentInv, Planned, BaseSafe;
    TidyBasics(s, full, snapLsn, at0);
    FilePlanned(s, full, s.eng.seg.start, snapLsn, at0);
  }

  /** The directory itself, with the names unlinked left out, is in order too. */
  lemma ShelvedNow(s: State, full: map<nat, nat>, snapLsn: nat, at0: Progress)
    requires TidyInv(s, full, snapLsn, at0) && RouteInv(s)
    ensures Submap(s.ker.dir, full) && DirOk(s.ker.files, full) && DirOk(s.ker.files, s.ker.dir)
    ensures Shelved(s.ker.files, s.ker.dir, s.eng.seg) && NewLast(s.ker.files, s.ker.dir)
  {
    hide TidyInv, RouteInv, Shelved, NewLast, ReplayAll, BaseSafe;
    TidyBasics(s, full, snapLsn, at0);
    TidyReplay(s, full, snapLsn, at0);
    SegmentNamed(s);
    ShelvedSub(s.ker.files, full, s.ker.dir, s.eng.seg);
  }

  lemma ShelvedSub(files: seq<File>, full: map<nat, nat>, dir: map<nat, nat>, seg: Segment)
    requires Shelved(files, full, seg) && Submap(dir, full) && seg.start in dir && NewLast(files, full)
    ensures Shelved(files, dir, seg) && NewLast(files, dir)
  {
    assert forall n :: n in dir.Keys ==> n in full.Keys;
  }

  lemma SegmentNamed(s: State)
    requires RouteInv(s)
    ensures s.eng.seg.start in s.ker.dir
  {
    hide RemovesBelow;
  }

  /**
   Replay of what a crash leaves of the directory: the records of its segments in listing order, up to the
   first gap in the active one.
   */
  lemma ReplayListing(s: State, imgs: seq<bytes>, snapLsn: nat, at: Progress, end: Progress)
    requires IoInv(s) && AllSurvive(s, imgs) && Legible(s, imgs)
    requires Shelved(s.ker.files, s.ker.dir, s.eng.seg) && NewLast(s.ker.files, s.ker.dir) && BaseSafe(Active(s))
    requires AllPlanned(Listed(s.ker.files, s.ker.dir))
    requires ReplayAll(Bases(Listed(s.ker.files, s.ker.dir)), snapLsn, at) == Clean(end)
    ensures |Listed(s.ker.files, s.ker.dir)| > 0 && |imgs| > 0 && Survives(Active(s), imgs[|imgs| - 1])
    ensures AllLoggable(Flat(Sealed(s.ker.files, s.ker.dir)) + Active(s).recs)
    ensures ReplaysTo(ReplayAll(imgs, snapLsn, at), Flat(Sealed(s.ker.files, s.ker.dir)) + Active(s).recs,
                      |Flat(Sealed(s.ker.files, s.ker.dir))| + ReadCount(s, imgs[|imgs| - 1]), snapLsn, end)
    ensures ReplayAll(imgs, snapLsn, at).Clean? <==> EndsOnRecord(Active(s), imgs[|imgs| - 1])
  {
    hide AllSurvive, Shelved, NewLast, BaseSafe, AllPlanned, Planned, ReplayAll, Replay, ReplaysTo, LineInv, PlanOk,
         ResultsOk, LineOf, Listed, Flat, Loggable, Absorb, FileOk, Sealed, Survives, TearSeen, ReadCount, EndsOnRecord;
    ListedActive(s.ker.files, s.ker.dir, s.eng.seg);
    ListedOldFirst(s.ker.files, s.ker.dir);
    ImagesSplit(s, imgs);
    var pre, f, img := Sealed(s.ker.files, s.ker.dir), Active(s), imgs[|imgs| - 1];
    PrePlanned(pre, f);
    var there := ReplayLead(pre, f, img, snapLsn, at, end);
    ReplayActive(s, img, snapLsn, there, Absorb(Flat(pre), snapLsn, end));
    Rejoin(Flat(pre), f.recs, ReadCount(s, img), Replay(img, snapLsn, there), snapLsn, end);
  }

  // ---- Runs without unlinks ----

  /** The first `j` records include those of every batch that is safe. */
  ghost predicate HasSafe(s: State, j: nat) {
    |s.locs| <= |s.spans| && forall k: nat :: k < |s.locs| && Safe(s, k) ==> s.spans[k].hi - s.start <= j
  }

  lemma SafeWithin(s: State, full: map<nat, nat>, img: bytes, snapLsn: nat, at0: Progress)
    requires TidyInv(s, full, snapLsn, at0) && HistoryOk(s) && SpansOk(s) && ContentInv(s) && s.lsn < U64
    requires s.eng.seg.ino < |s.ker.files| && Survives(Active(s), img)
    ensures DirOk(s.ker.files, full) && |Listed(s.ker.files, full)| > 0
    ensures HasSafe(s, |Flat(Sealed(s.ker.files, full))| + ReadCount(s, img))
  {
    hide HistoryOk, SpansOk, ContentInv, TidyInv, Survives, Safe, Flat, Listed, RecsIn, Sealed, BaseSafe, Shelved,
         ReadCount, Planned;
    TidyBasics(s, full, snapLsn, at0);
    ActivePlanned(s, full, snapLsn, at0);
    ListedActive(s.ker.files, full, s.eng.seg);
    forall i: nat | i < |s.locs| && Safe(s, i)
      ensures s.spans[i].hi - s.start <= |Flat(Sealed(s.ker.files, full))| + ReadCount(s, img)
    {
      if s.locs[i].ino == s.eng.seg.ino {
        ActivePosition(s, full, i, snapLsn, at0);
        SafeRead(s, img, i);
      } else {
        BatchSealed(s, full, i, snapLsn, at0);
      }
    }
  }

  /** With every name still in the directory, replay gives a prefix of the records placed, with every safe batch. */
  lemma ReplayState(s: State, imgs: seq<bytes>, snapLsn: nat, at0: Progress) returns (j: nat)
    requires TidyInv(s, s.ker.dir, snapLsn, at0) && Inv(s) && s.lsn < U64 && AllSurvive(s, imgs) && Legible(s, imgs)
    ensures SpansFit(s) && IngestedUpTo(s) <= |s.hist| && Loggables(s.start, s.hist[..IngestedUpTo(s)])
    ensures AllLoggable(RecsOf(s.start, s.hist[..IngestedUpTo(s)])) && j <= |RecsOf(s.start, s.hist[..IngestedUpTo(s)])|
    ensures ReplaysTo(ReplayAll(imgs, snapLsn, at0), RecsOf(s.start, s.hist[..IngestedUpTo(s)]),
                      j, snapLsn, Progress(s.db0, s.start - 1))
    ensures HasSafe(s, j)
    ensures imgs != [] && s.eng.seg.ino < |s.ker.files|
    ensures ReplayAll(imgs, snapLsn, at0).Clean? <==> EndsOnRecord(Active(s), imgs[|imgs| - 1])
  {
    hide RouteInv, BatchInv, IoInv, DurableInv, ReplyInv, OutInv, Buffers.BufferInv, ContentInv, HistoryOk, SpansOk,
         WatermarkOk, TidyInv, AllSurvive, Legible, Shelved, NewLast, BaseSafe, AllPlanned, ReplayAll, ReplaysTo,
         Listed, Flat, Loggable, Survives, RecsOf, Sealed, Bases, WellFormed, HasSafe, ReadCount, EndsOnRecord;
    var dir := s.ker.dir;
    HistoryFromBatch(s);
    TidyBasics(s, dir, snapLsn, at0);
    HistoryFits(s, dir, snapLsn, at0);
    ListedPlanned(s, dir, dir, snapLsn, at0);
    TidyReplay(s, dir, snapLsn, at0);
    ListedActive(s.ker.files, dir, s.eng.seg);
    ReplayListing(s, imgs, snapLsn, at0, Progress(s.db0, s.start - 1));
    SafeWithin(s, dir, imgs[|imgs| - 1], snapLsn, at0);
    j := |Flat(Sealed(s.ker.files, dir))| + ReadCount(s, imgs[|imgs| - 1]);
  }

  lemma TidyReplay(s: State, full: map<nat, nat>, snapLsn: nat, at0: Progress)
    requires TidyInv(s, full, snapLsn, at0)
    ensures DirOk(s.ker.files, full) && NewLast(s.ker.files, full) && s.start > 0
    ensures ReplayAll(Bases(Listed(s.ker.files, full)), snapLsn, at0) == Clean(Progress(s.db0, s.start - 1))
  {
    hide RecsOf, WellFormed, Flat, Listed, Bases, ReplayAll, BaseSafe;
  }

  lemma FilesSound(s: State)
    requires IoInv(s)
    ensures FilesOk(s) && FileOk(Active(s))
  {
    hide LineInv, PlanOk, ResultsOk, LineOf;
    LineFile(Line(s), |s.ker.cq|, Active(s));
  }

  // ---- The theorems ----

  /** The LSN stage 2 gives to the PUT `id`. */
  function LsnOf(s: State, id: nat): nat
    requires AllWellFormed(s.hist) && id < |s.hist|
  {
    s.start + |RecsOf(s.start, s.hist[..id + 1])|
  }

  lemma LsnInBatch(s: State, k: nat, id: nat)
    requires HistoryOk(s) && SpansOk(s) && k < |s.spans| && InSpan(s.spans[k], id)
    ensures id < |s.hist| && LsnOf(s, id) <= s.spans[k].hi
  {
    hide RecsOf, Exec, WellFormed;
    IngestRecs(s, k);
    RecsMonotone(s.start, s.hist, id + 1, s.spans[k].first + s.spans[k].n);
  }

  /** What recovery returns when replay yields the first `j` records. */
  lemma RecoveredPrefix(snap: Option<bytes>, imgs: seq<bytes>, snapLsn: nat, snapDb: Kv, db0: Kv, start: nat,
                        bodies: seq<bytes>, j: nat)
      returns (m: nat)
    requires Base(snap) == Some((snapLsn, snapDb)) && snapLsn < start && Loggables(start, bodies)
    requires AllLoggable(RecsOf(start, bodies)) && j <= |RecsOf(start, bodies)|
    requires ReplaysTo(ReplayAll(imgs, snapLsn, Progress(snapDb, snapLsn)), RecsOf(start, bodies),
                       j, snapLsn, Progress(db0, start - 1))
    ensures m <= |bodies| && |RecsOf(start, bodies[..m])| == j
    ensures RecoverFrom(snap, imgs) == Recovered(Exec(db0, bodies[..m]), if j == 0 then start else start + j + 1)
  {
    hide RecsOf, Exec, WellFormed, Absorb, Loggable, ReplayAll, Base;
    m := PrefixFor(start, bodies, j);
    assert Loggables(start, bodies[..m]);
    AbsorbRecs(snapLsn, Progress(db0, start - 1), start, bodies[..m]);
  }

  /** A PUT lies in a prefix of the requests exactly if its LSN is among those of the prefix. */
  lemma InPrefix(s: State, m: nat, id: nat)
    requires AllWellFormed(s.hist) && m <= |s.hist| && id < |s.hist| && IsPut(s.hist[id])
    ensures s.start < LsnOf(s, id)
    ensures id < m <==> LsnOf(s, id) <= s.start + |RecsOf(s.start, s.hist[..m])|
  {
    hide RecsOf, WellFormed;
    PutCounts(s.start, s.hist, id);
    if id < m {
      RecsMonotone(s.start, s.hist, id + 1, m);
    } else {
      RecsMonotone(s.start, s.hist, m, id);
    }
  }

  lemma StartAbove(s: State, full: map<nat, nat>, snapLsn: nat, snapDb: Kv)
    requires TidyInv(s, full, snapLsn, Progress(snapDb, snapLsn))
    ensures snapLsn < s.start
  {
    hide TidyInv, ReplayAll, Listed;
    TidyReplay(s, full, snapLsn, Progress(snapDb, snapLsn));
    HighestGrowsAll(Bases(Listed(s.ker.files, full)), snapLsn, Progress(snapDb, snapLsn));
  }

  /**
   Recovery returned the map after the first `m` requests. A PUT is among them exactly if its LSN is below
   the next one, and surely if its batch is safe.
   */
  ghost predicate PrefixReturned(s: State, r: Recovered, m: nat, next: nat) {
    && m <= |s.hist| && AllWellFormed(s.hist) && |s.locs| <= |s.spans|
    && r == Recovered(Exec(s.db0, s.hist[..m]), next)
    && var puts := |RecsOf(s.start, s.hist[..m])|;
    && next == (if puts == 0 then s.start else s.start + puts + 1)
    && (forall id: nat :: id < |s.hist| && IsPut(s.hist[id]) ==> (id < m <==> LsnOf(s, id) < next))
    && (forall k: nat :: k < |s.locs| && Safe(s, k) ==> PutsWithin(s, k, m))
  }

  /**
   What a crash keeps is a prefix, if the checksum tells. No segment was unlinked and no rotation went back;
   writes may have been short, interrupted and retried, in any mode, and the crash may have done anything to
   bytes that are not fsynced. If then the first record it broke fails to decode, recovery returns the map
   after the first `m` requests, and a PUT is among them exactly if its LSN is below the next one. A PUT is
   among them if its batch is safe.
   */
  lemma LegibleRecovers(states: seq<State>, steps: seq<Step>, snap: Option<bytes>, snapLsn: nat, snapDb: Kv,
                        imgs: seq<bytes>)
      returns (m: nat, next: nat)
    requires OrderlyRun(states, steps)
    requires Base(snap) == Some((snapLsn, snapDb)) && CleanStart(states[0], snapLsn, Progress(snapDb, snapLsn))
    requires states[|steps|].lsn < U64 && AllSurvive(states[|steps|], imgs) && Legible(states[|steps|], imgs)
    ensures PrefixReturned(states[|steps|], RecoverFrom(snap, imgs), m, next)
  {
    hide Init, Enabled, Next, CleanStart, TidyInv, RouteInv, BatchInv, IoInv, DurableInv, ReplyInv, OutInv,
         Buffers.BufferInv, Orderly, ContentInv, Base, RecsOf, Exec, WellFormed, ReplaysTo, ReplayAll, HistoryOk,
         SpansOk, WatermarkOk, AllSurvive, Legible, RecoverFrom, Loggable, Safe, PutsWithin;
    var s, n := states[|steps|], |steps|;
    var at0 := Progress(snapDb, snapLsn);
    OrderlyTidy(states, steps, snapLsn, at0);
    InvAlways(states, steps, n);
    HistoryFromBatch(s);
    HistoryBasics(s);
    StartAbove(s, s.ker.dir, snapLsn, snapDb);
    var j := ReplayState(s, imgs, snapLsn, at0);
    var e := IngestedUpTo(s);
    m := RecoveredPrefix(snap, imgs, snapLsn, snapDb, s.db0, s.start, s.hist[..e], j);
    assert s.hist[..e][..m] == s.hist[..m];
    next := if j == 0 then s.start else s.start + j + 1;
    forall id: nat | id < |s.hist| && IsPut(s.hist[id]) ensures id < m <==> LsnOf(s, id) < next {
      InPrefix(s, m, id);
    }
    forall k: nat | k < |s.locs| && Safe(s, k) ensures PutsWithin(s, k, m) {
      BatchWithin(s, k, m);
    }
  }

  /**
   The same without any assumption on the checksum: at the crash no batch is torn, though a short write may
   be unfinished at the end of the file, and the crash loses batches as a whole or cuts the file off.
   */
  lemma PrefixRecovers(states: seq<State>, steps: seq<Step>, snap: Option<bytes>, snapLsn: nat, snapDb: Kv,
                       imgs: seq<bytes>)
      returns (m: nat, next: nat)
    requires OrderlyRun(states, steps) && NoTorn(states[|steps|])
    requires Base(snap) == Some((snapLsn, snapDb)) && CleanStart(states[0], snapLsn, Progress(snapDb, snapLsn))
    requires states[|steps|].lsn < U64 && CrashImages(states[|steps|], imgs)
    ensures PrefixReturned(states[|steps|], RecoverFrom(snap, imgs), m, next)
  {
    hide Init, Enabled, Next, CleanStart, TidyInv, Inv, NoTorn, Orderly, Base, CrashImages, AllSurvive, Legible,
         RecoverFrom, PrefixReturned;
    var s := states[|steps|];
    OrderlyTidy(states, steps, snapLsn, Progress(snapDb, snapLsn));
    InvAlways(states, steps, |steps|);
    NoTornLegible(s, s.ker.dir, imgs, snapLsn, Progress(snapDb, snapLsn));
    m, next := LegibleRecovers(states, steps, snap, snapLsn, snapDb, imgs);
  }

  /** Every PUT of batch `k` is among the first `m` requests. */
  ghost predicate PutsWithin(s: State, k: nat, m: nat)
    requires k < |s.spans|
  {
    forall id: nat :: InSpan(s.spans[k], id) ==> id < |s.hist| && (IsPut(s.hist[id]) ==> id < m)
  }

  lemma BatchWithin(s: State, k: nat, m: nat)
    requires HistoryOk(s) && SpansOk(s) && k < |s.spans| && m <= |s.hist|
    requires s.spans[k].hi - s.start <= |RecsOf(s.start, s.hist[..m])|
    ensures PutsWithin(s, k, m)
  {
    hide HistoryOk, SpansOk, RecsOf, IsPut, InSpan;
    HistoryBasics(s);
    forall id: nat | InSpan(s.spans[k], id) ensures id < |s.hist| && (IsPut(s.hist[id]) ==> id < m) {
      LsnInBatch(s, k, id);
      if IsPut(s.hist[id]) { InPrefix(s, m, id); }
    }
  }

  lemma OrderlyTidy(states: seq<State>, steps: seq<Step>, snapLsn: nat, at0: Progress)
    requires OrderlyRun(states, steps) && CleanStart(states[0], snapLsn, at0)
    ensures TidyInv(states[|steps|], states[|steps|].ker.dir, snapLsn, at0)
  {
    hide Init, Enabled, Next, CleanStart, TidyInv, Orderly, Forward;
    OrderlyIsForward(states, steps);
    TidyAlways(states, steps, |steps|, snapLsn, at0);
    NoneUnlinked(states, steps, |steps|);
  }

  /**
   Interruptions alone never tear a batch: in runs in which each attempt writes everything or nothing, what
   is recovered after a crash at any point is the state after a prefix of the requests.
   */
  lemma InterruptedRecovers(states: seq<State>, steps: seq<Step>, snap: Option<bytes>, snapLsn: nat, snapDb: Kv,
                            imgs: seq<bytes>)
      returns (m: nat, next: nat)
    requires OrderlyRun(states, steps) && SteadyRun(states, steps)
    requires Base(snap) == Some((snapLsn, snapDb)) && CleanStart(states[0], snapLsn, Progress(snapDb, snapLsn))
    requires states[|steps|].lsn < U64 && CrashImages(states[|steps|], imgs)
    ensures PrefixReturned(states[|steps|], RecoverFrom(snap, imgs), m, next)
  {
    hide Init, Enabled, Next, CleanStart, NoTorn, Base, CrashImages, RecoverFrom, Steady, SteadyInv, PrefixReturned;
    SteadyAlways(states, steps, |steps|);
    m, next := PrefixRecovers(states, steps, snap, snapLsn, snapDb, imgs);
  }

  // ---- Runs without retries ----

  /** Without short or retried writes, whatever precedes a fsynced batch in its segment is fsynced. */
  lemma CalmSafe(s: State, k: nat, id: nat)
    requires Inv(s) && SmoothState(s) && SyncedBatch(s, k, id)
    ensures Safe(s, k)
  {
    hide RouteInv, BatchInv, IoInv, DurableInv, ReplyInv, OutInv, Buffers.BufferInv, ContentInv, LineOf, HistoryOk,
         SpansOk, WatermarkOk, SmoothInv, AllSynced, FilesOk, FileOk;
    HistoryFromBatch(s);
    FilesSound(s);
    BatchRange(s, k);
    assert SolidPrefix(Active(s)) by { SmoothSolid(Line(s), |s.ker.cq|, Active(s)); }
    forall i | 0 <= i <= k && s.locs[i].ino == s.locs[k].ino
      ensures s.locs[i].ino < |s.ker.files| && AllSynced(s.ker.files[s.locs[i].ino], s.locs[i])
    {
      PlaceFits(s, i);
      if i < k { EarlierSynced(s, i, k); }
    }
  }

  lemma SmoothSolid(line: seq<Slot>, nCq: nat, f: File)
    requires SmoothInv(line, nCq, f)
    ensures SolidPrefix(f)
  {
  }

  lemma EarlierSynced(s: State, i: nat, k: nat)
    requires DurableInv(s) && FilesOk(s) && s.eng.seg.ino < |s.ker.files| && SolidPrefix(Active(s))
    requires i < k < |s.locs| && s.locs[i].ino == s.locs[k].ino < |s.ker.files| && s.locs[k].len > 0
    requires AllSynced(s.ker.files[s.locs[k].ino], s.locs[k])
    requires s.locs[i].off + s.locs[i].len <= |s.ker.files[s.locs[i].ino].want|
    ensures AllSynced(s.ker.files[s.locs[i].ino], s.locs[i])
  {
    hide LevelTrue;
    var f, a, b := s.ker.files[s.locs[k].ino], s.locs[i], s.locs[k];
    assert a.off + a.len <= b.off by { assert PlacedOk(s, k); }
    if s.locs[k].ino == s.eng.seg.ino {
      assert SyncedAt(f, b.off);
      assert forall p: nat :: p < b.off ==> SyncedAt(f, p);
    } else {
      WholeRange(f, a);
    }
  }

  /**
   Crash recovery. A run starts from segments `recover` read to their end; no write in it is short or
   retried, no rotation goes back, and no segment is unlinked. A crash after any number of steps keeps all
   fsynced bytes; of the rest, it may lose any batch and cut the file at any byte. `recover` then rebuilds
   the map after the first `m` requests; in Sync mode these include every PUT already answered. Numbering
   resumes above all of them.
   */
  lemma CrashRecovers(states: seq<State>, steps: seq<Step>, snap: Option<bytes>, snapLsn: nat, snapDb: Kv,
                      imgs: seq<bytes>)
      returns (m: nat, next: nat)
    requires OrderlyRun(states, steps) && CalmRun(states, steps)
    requires Base(snap) == Some((snapLsn, snapDb)) && CleanStart(states[0], snapLsn, Progress(snapDb, snapLsn))
    requires states[|steps|].lsn < U64 && CrashImages(states[|steps|], imgs)
    ensures var s := states[|steps|];
            && m <= |s.hist| && AllWellFormed(s.hist)
            && RecoverFrom(snap, imgs) == Recovered(Exec(s.db0, s.hist[..m]), next)
            && var puts := |RecsOf(s.start, s.hist[..m])|;
            && next == (if puts == 0 then s.start else s.start + puts + 1)
            && (s.eng.mode == Sync ==>
                 forall id: nat :: id < |s.hist| && Answered(s, id) && IsPut(s.hist[id]) ==>
                   id < m && LsnOf(s, id) < next)
  {
    hide Init, Enabled, Next, CleanStart, NoTorn, Base, Exec, WellFormed, CrashImages, RecoverFrom, Calm, Steady,
         Safe, PutsWithin, Answered, SmoothState, Inv, RecsOf, SteadyInv;
    var s, n := states[|steps|], |steps|;
    CalmIsSteady(states, steps);
    SteadyAlways(states, steps, n);
    InvAlways(states, steps, n);
    SmoothAlways(states, steps, n);
    m, next := PrefixRecovers(states, steps, snap, snapLsn, snapDb, imgs);
    if s.eng.mode == Sync {
      forall id: nat | id < |s.hist| && Answered(s, id) && IsPut(s.hist[id]) ensures id < m {
        var k := AnsweredSafe(s, id);
        assert PutsWithin(s, k, m);
        WithinOne(s, k, m, id);
      }
    }
  }

  lemma WithinOne(s: State, k: nat, m: nat, id: nat)
    requires k < |s.spans| && PutsWithin(s, k, m) && InSpan(s.spans[k], id) && id < |s.hist| && IsPut(s.hist[id])
    ensures id < m
  {
  }

  lemma AnsweredSafe(s: State, id: nat) returns (k: nat)
    requires Inv(s) && SmoothState(s) && s.eng.mode == Sync && Answered(s, id) && id < |s.hist| && IsPut(s.hist[id])
    ensures k < |s.locs| <= |s.spans| && InSpan(s.spans[k], id) && Safe(s, k)
  {
    hide Inv, SmoothState, Answered, Safe;
    AnsweredSynced(s, id);
    k :| k >= 0 && SyncedBatch(s, k, id);
    CalmSafe(s, k, id);
  }
}
