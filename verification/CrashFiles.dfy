/**
 What a crash may leave of a segment, and how replay reads it (crates/storage/src/lib.rs). Everything
 fsynced survives. Of the rest, anything may be left, and then the checksum has to tell; or each batch is
 there or lost and the file ends at some byte, and then nothing depends on the checksum.
 */
module CrashFiles {
  import opened Bytes
  import opened Wire
  import opened WalFormat
  import opened Recovery
  import opened Stage2
  import opened IoLine
  import opened Pipeline
  import opened Batches
  import opened Storage
  import opened Durability
  import opened Content
  import opened CrashReplay
  import opened LogOrder
  import opened TornBatches

  /**
   The least that every crash keeps: no fsynced byte is lost and the file does not grow. Any other byte may
   read as anything.
   */
  ghost predicate Survives(f: File, img: bytes) {
    && |f.synced| <= |img| <= |f.data|
    && forall p: nat :: p < |f.want| && SyncedAt(f, p) ==> img[p] == f.want[p]
  }

  /** The byte at `p` as the last fsync left it: past its end, nothing. */
  function LastSynced(f: File, p: nat): byte { if p < |f.synced| then f.synced[p] else 0 }

  /** Over the batch at `loc`, the image has what the file holds. */
  ghost predicate Keeps(f: File, img: bytes, loc: Loc)
    requires |img| <= |f.data|
  {
    forall p: nat :: Within(loc, p) && p < |img| ==> img[p] == f.data[p]
  }

  /** Over the batch at `loc`, the image has what was last fsynced. */
  ghost predicate Reverts(f: File, img: bytes, loc: Loc) {
    forall p: nat :: Within(loc, p) && p < |img| ==> img[p] == LastSynced(f, p)
  }

  /**
   What a crash leaves of file `ino` if it loses batches as a whole: no fsynced byte is lost, each batch
   placed in the file is as it is now or as it was last fsynced, and what lies past the fsynced length may
   be cut off at any byte.
   */
  ghost predicate CrashImage(s: State, ino: nat, img: bytes)
    requires ino < |s.ker.files|
  {
    var f := s.ker.files[ino];
    && |f.synced| <= |img| <= |f.data|
    && (forall p: nat :: p < |img| ==> img[p] == f.data[p] || img[p] == LastSynced(f, p))
    && (forall k :: 0 <= k < |s.locs| && s.locs[k].ino == ino ==>
      Keeps(f, img, s.locs[k]) || Reverts(f, img, s.locs[k]))
  }

  lemma ImageSurvives(s: State, ino: nat, img: bytes)
    requires ino < |s.ker.files| && CrashImage(s, ino, img) && FileOk(s.ker.files[ino])
    ensures Survives(s.ker.files[ino], img)
  {
    var f := s.ker.files[ino];
    forall p: nat | p < |f.want| && SyncedAt(f, p) ensures img[p] == f.want[p] {
      assert LandedAt(f, p);
    }
  }

  // ---- Where batches are ----

  lemma {:induction false} RecsInPrefix(s: State, ino: nat, m: nat, n: nat)
    requires SpansFit(s) && m <= n <= |s.locs|
    ensures RecsIn(s, ino, m) <= RecsIn(s, ino, n)
  {
    hide SpanRecs;
    if m < n { RecsInPrefix(s, ino, m, n - 1); }
  }

  lemma RecsInNext(s: State, ino: nat, k: nat)
    requires SpansFit(s) && k < |s.locs|
    ensures RecsIn(s, ino, k + 1) == RecsIn(s, ino, k) + if s.locs[k].ino == ino then SpanRecs(s, k) else []
  {
  }

  /** A batch's last record carries its high watermark. */
  lemma LastLsn(s: State, k: nat)
    requires HistoryOk(s) && SpansOk(s) && SpansFit(s) && k < |s.spans|
    ensures var rs := SpanRecs(s, k);
            rs != [] && rs[|rs| - 1].lsn == s.spans[k].hi && |rs| == s.spans[k].hi - s.spans[k].lo
  {
    hide RecsOf, Exec, WellFormed;
    assert SpanOk(s, s.spans[k]);
    RecsNumbered(s.spans[k].lo, Slice(s, s.spans[k]));
  }

  lemma LogLong(recs: seq<Rec>)
    requires recs != []
    ensures |EncodeLog(recs)| >= 20
  {
    hide Encode;
  }

  lemma ContentAt(s: State, k: nat)
    requires ContentInv(s) && k < |s.locs|
    ensures SpansFit(s) && GapFree(s, k)
  {
    hide FileContent;
  }

  lemma ContentFile(s: State, i: nat)
    requires ContentInv(s) && i < |s.ker.files|
    ensures SpansFit(s) && FileContent(s, i)
  {
    hide GapFree;
  }

  /** Where the first `n` batches, as far as they were placed in `ino`, end in it. */
  function EndOf(s: State, ino: nat, n: nat): nat
    requires SpansFit(s) && n <= |s.locs| && ino < |s.ker.files|
  {
    |s.ker.files[ino].base| + |EncodeLog(RecsIn(s, ino, n))|
  }

  /** Batch `k` starts where those before it end, and the next one starts where it ends. */
  lemma BatchRange(s: State, k: nat)
    requires HistoryOk(s) && SpansOk(s) && ContentInv(s) && k < |s.locs|
    ensures s.locs[k].ino < |s.ker.files| && s.locs[k].len >= 20
    ensures s.locs[k].off == EndOf(s, s.locs[k].ino, k)
    ensures s.locs[k].off + s.locs[k].len == EndOf(s, s.locs[k].ino, k + 1)
  {
    hide HistoryOk, SpansOk, ContentInv, RecsOf, WellFormed, EncodeLog, SpanRecs, RecsIn;
    ContentAt(s, k);
    LastLsn(s, k);
    LogLong(SpanRecs(s, k));
    RecsInNext(s, s.locs[k].ino, k);
    EncodeLogAppend(RecsIn(s, s.locs[k].ino, k), SpanRecs(s, k));
  }

  /** The file's records begin with those of its first batches. */
  lemma FilePrefix(s: State, ino: nat, n: nat)
    requires ContentInv(s) && ino < |s.ker.files| && n <= |s.locs|
    ensures SpansFit(s)
    ensures var f, q := s.ker.files[ino], |RecsIn(s, ino, n)|;
            q <= |f.recs| && f.recs[..q] == RecsIn(s, ino, n) && EndOf(s, ino, n) == RecEnd(f, q)
  {
    hide ContentInv, EncodeLog, RecsIn, SpanRecs;
    ContentFile(s, ino);
    RecsInPrefix(s, ino, n, |s.locs|);
  }

  lemma EndsWithin(s: State, ino: nat, n: nat)
    requires ContentInv(s) && ino < |s.ker.files| && n <= |s.locs|
    ensures SpansFit(s) && EndOf(s, ino, n) <= EndOf(s, ino, |s.locs|) == |s.ker.files[ino].want|
  {
    hide ContentInv, EncodeLog, RecsIn, SpanRecs;
    ContentFile(s, ino);
    RecsInPrefix(s, ino, n, |s.locs|);
    var a, b := RecsIn(s, ino, n), RecsIn(s, ino, |s.locs|);
    assert b == a + b[|a|..];
    EncodeLogAppend(a, b[|a|..]);
  }

  // ---- The first batch an image lacks ----

  /** What the file held at start-up is in every image. */
  lemma BaseKept(f: File, img: bytes)
    requires Survives(f, img) && BaseSafe(f)
    ensures SolidTo(f, img, |f.base|)
  {
    forall p: nat | p < |f.base| ensures p < |img| && img[p] == f.want[p] {
      assert SyncedAt(f, p);
    }
    if f.base != [] { assert SyncedAt(f, |f.base| - 1); }
  }

  lemma SolidNext(f: File, img: bytes, loc: Loc)
    requires SolidTo(f, img, loc.off) && loc.off + loc.len <= |f.want| && Present(f, img, loc) && loc.len > 0
    ensures SolidTo(f, img, loc.off + loc.len)
  {
    var h := loc.off + loc.len;
    assert Within(loc, h - 1);
    forall p: nat | p < h ensures img[p] == f.want[p] {
      if p < loc.off { assert img[..loc.off][p] == f.want[..loc.off][p]; } else { assert Within(loc, p); }
    }
  }

  /** The first of the first `n` batches that the image lacks, or `n`: up to there it is what the file is to hold. */
  lemma {:induction false} FirstLacking(s: State, ino: nat, img: bytes, n: nat) returns (k: nat)
    requires HistoryOk(s) && SpansOk(s) && ContentInv(s) && ino < |s.ker.files| && n <= |s.locs|
    requires Survives(s.ker.files[ino], img) && BaseSafe(s.ker.files[ino])
    ensures SpansFit(s) && k <= n && SolidTo(s.ker.files[ino], img, EndOf(s, ino, k))
    ensures k < n ==> s.locs[k].ino == ino && s.locs[k].off + s.locs[k].len <= |s.ker.files[ino].want|
    ensures k < n ==> !Present(s.ker.files[ino], img, s.locs[k])
    decreases n
  {
    hide HistoryOk, SpansOk, ContentInv, Survives, BaseSafe, EncodeLog, RecsIn, SolidTo, Present;
    if n == 0 {
      k := 0;
      FilePrefix(s, ino, 0);
      NoBatches(s, ino);
      BaseKept(s.ker.files[ino], img);
    } else {
      k := FirstLacking(s, ino, img, n - 1);
      if k == n - 1 {
        BatchRange(s, k);
        EndsWithin(s, ino, n);
        var f, loc := s.ker.files[ino], s.locs[k];
        if loc.ino != ino {
          RecsInNext(s, ino, k);
          assert RecsIn(s, ino, k) + [] == RecsIn(s, ino, k);
          k := n;
        } else if Present(f, img, loc) {
          SolidNext(f, img, loc);
          k := n;
        }
      }
    }
  }

  lemma NoBatches(s: State, ino: nat)
    requires SpansFit(s) && ino < |s.ker.files|
    ensures EndOf(s, ino, 0) == |s.ker.files[ino].base|
  {
    EmptyLog();
  }

  // ---- What an image lacks is a hole, or cut off ----

  lemma LackingHow(s: State, img: bytes, k: nat)
    requires NoTorn(s) && k < |s.locs| && s.locs[k].ino == s.eng.seg.ino && CrashImage(s, s.eng.seg.ino, img)
    requires s.locs[k].off + s.locs[k].len <= |Active(s).want| && !Present(Active(s), img, s.locs[k])
    ensures Absent(img, s.locs[k]) || CutOff(Active(s), img, s.locs[k])
  {
    var f, loc := Active(s), s.locs[k];
    assert (Entire(f, f.data, loc) || CutOff(f, f.data, loc)) && Entire(f, f.synced, loc);
    if Keeps(f, img, loc) {
      KeptHow(f, img, loc);
    } else {
      assert Reverts(f, img, loc);
      RevertedHow(f, img, loc);
    }
  }

  lemma KeptHow(f: File, img: bytes, loc: Loc)
    requires |img| <= |f.data| && Keeps(f, img, loc) && loc.off + loc.len <= |f.want|
    requires Entire(f, f.data, loc) || CutOff(f, f.data, loc)
    ensures Present(f, img, loc) || Absent(img, loc) || CutOff(f, img, loc)
  {
  }

  lemma RevertedHow(f: File, img: bytes, loc: Loc)
    requires |f.synced| <= |img| && Reverts(f, img, loc) && Entire(f, f.synced, loc)
    ensures Present(f, img, loc) || Absent(img, loc)
  {
  }

  lemma SolidCut(f: File, img: bytes, loc: Loc)
    requires SolidTo(f, img, loc.off) && loc.off + loc.len <= |f.want| && |img| <= |f.want| && CutOff(f, img, loc)
    ensures img == f.want[..|img|]
  {
    forall p: nat | p < |img| ensures img[p] == f.want[p] {
      if p < loc.off { assert img[..loc.off][p] == f.want[..loc.off][p]; } else { assert Within(loc, p); }
    }
  }

  // ---- Replay of the active segment ----

  /** How many of this run's records in the active segment the image has, up to its first gap. */
  ghost function ReadCount(s: State, img: bytes): (q: nat)
    requires s.eng.seg.ino < |s.ker.files|
    ensures q <= |Active(s).recs|
  {
    Intact(Active(s), img, |Active(s).recs|)
  }

  /** Replay of any image of the active segment, if its tear is seen, ends exactly at the first gap. */
  lemma ReplayActive(s: State, img: bytes, snapLsn: nat, at: Progress, mid: Progress)
    requires s.eng.seg.ino < |s.ker.files| && Survives(Active(s), img) && TearSeen(Active(s), img)
    requires BaseSafe(Active(s)) && Planned(Active(s)) && Replay(Active(s).base, snapLsn, at) == Clean(mid)
    ensures ReplaysTo(Replay(img, snapLsn, at), Active(s).recs, ReadCount(s, img), snapLsn, mid)
    ensures Replay(img, snapLsn, at).Clean? <==> EndsOnRecord(Active(s), img)
  {
    hide Survives, TearSeen, BaseSafe, Planned, Replay, ReplaysTo, EndsOnRecord;
    BaseKept(Active(s), img);
    ReplayImage(Active(s), img, snapLsn, at, mid);
  }

  /** As long as no batch is torn and batches are lost as a whole, every tear is seen, whatever the checksum. */
  lemma NoTornSeen(s: State, img: bytes)
    requires HistoryOk(s) && SpansOk(s) && ContentInv(s) && NoTorn(s)
    requires s.eng.seg.ino < |s.ker.files| && CrashImage(s, s.eng.seg.ino, img)
    requires FileOk(Active(s)) && BaseSafe(Active(s)) && Planned(Active(s))
    ensures TearSeen(Active(s), img)
  {
    hide HistoryOk, SpansOk, ContentInv, NoTorn, CrashImage, BaseSafe, FileOk, EncodeLog, RecsIn, SolidTo, Present,
         Absent, CutOff, Planned, Survives, RecEnd, EndOf, TearSeen;
    var ino, f := s.eng.seg.ino, Active(s);
    ImageSurvives(s, ino, img);
    var k := FirstLacking(s, ino, img, |s.locs|);
    FilePrefix(s, ino, k);
    EndsWithin(s, ino, k);
    ImageLength(s, img);
    if k == |s.locs| {
      WholeImage(f, img);
      CutSeen(f, img);
    } else {
      BatchRange(s, k);
      LackingHow(s, img, k);
      LackingSeen(f, img, s.locs[k], |RecsIn(s, ino, k)|);
    }
  }

  lemma ImageLength(s: State, img: bytes)
    requires s.eng.seg.ino < |s.ker.files| && CrashImage(s, s.eng.seg.ino, img) && FileOk(Active(s))
    ensures |img| <= |Active(s).want|
  {
  }

  lemma WholeImage(f: File, img: bytes)
    requires SolidTo(f, img, |f.want|) && |img| <= |f.want| && Planned(f)
    ensures |f.base| <= |img| == |f.want| && img == f.want[..|img|]
  {
  }

  lemma LackingSeen(f: File, img: bytes, loc: Loc, q: nat)
    requires Planned(f) && q <= |f.recs| && loc.len >= 20
    requires loc.off == RecEnd(f, q) && loc.off + loc.len <= |f.want| && |img| <= |f.want|
    requires SolidTo(f, img, loc.off) && (Absent(img, loc) || CutOff(f, img, loc))
    ensures TearSeen(f, img)
  {
    hide EncodeLog, Planned, CutOff, TearSeen, Intact;
    if Absent(img, loc) {
      assert forall p: nat :: loc.off <= p < loc.off + loc.len && p < |img| ==> Within(loc, p);
      HoleSeen(f, img, q, loc.len);
    } else {
      SolidCut(f, img, loc);
      CutSeen(f, img);
    }
  }

  // ---- What is fsynced is in every image ----

  lemma SyncedPresent(f: File, img: bytes, loc: Loc)
    requires Survives(f, img) && AllSynced(f, loc)
    ensures Present(f, img, loc)
  {
    forall p: nat | Within(loc, p) ensures p < |img| && img[p] == f.want[p] {
      assert SyncedAt(f, p);
    }
  }

  /** Batch `k` and every earlier batch of its segment are fsynced. */
  ghost predicate Safe(s: State, k: nat)
    requires k < |s.locs|
  {
    forall i :: 0 <= i <= k && s.locs[i].ino == s.locs[k].ino ==>
      s.locs[i].ino < |s.ker.files| && AllSynced(s.ker.files[s.locs[i].ino], s.locs[i])
  }

  /** A safe batch is read from every image. */
  lemma SafeRead(s: State, img: bytes, i: nat)
    requires HistoryOk(s) && SpansOk(s) && ContentInv(s) && s.eng.seg.ino < |s.ker.files|
    requires Survives(Active(s), img) && BaseSafe(Active(s)) && Planned(Active(s))
    requires i < |s.locs| && s.locs[i].ino == s.eng.seg.ino && Safe(s, i)
    ensures SpansFit(s) && |RecsIn(s, s.eng.seg.ino, i + 1)| <= ReadCount(s, img)
  {
    hide HistoryOk, SpansOk, ContentInv, Survives, AllSynced, Present, RecsIn, BaseSafe, SolidTo, Planned, RecEnd,
         EndOf;
    var ino, f := s.eng.seg.ino, Active(s);
    var k := FirstLacking(s, ino, img, i + 1);
    if k <= i { SyncedPresent(f, img, s.locs[k]); }
    FilePrefix(s, ino, i + 1);
  }
}
