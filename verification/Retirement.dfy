/**
 Compaction (crates/server/src/stage3/mod.rs, crates/server/src/stage2/mod.rs): a snapshot is on disk and
 segments it covers have been unlinked, in any order, some perhaps not yet. Recovery after a crash still
 returns the state after a prefix of the requests.
 */
module Retirement {
  import opened Bytes
  import opened Types
  import opened Wire
  import opened WalFormat
  import opened Recovery
  import opened SnapshotReplay
  import opened Stage2
  import opened IoLine
  import opened WalCore
  import opened Pipeline
  import opened Names
  import opened Routing
  import opened Batches
  import opened Storage
  import opened Durability
  import opened Replies
  import opened Outstanding
  import opened Content
  import opened CalmSteps
  import opened TornBatches
  import opened CrashReplay
  import opened LogOrder
  import opened CrashFiles
  import opened EndToEnd
  import opened Runs
  import opened CrashRecovery
  import opened Theorems

  // ---- Old content is skipped ----

  /** Content that replayed cleanly up to some LSN is skipped under a label at or above it. */
  lemma {:induction false} Skipped(b: bytes, snapLsn: nat, at: Progress, mid: Progress, mark: nat, x: Progress)
    requires Replay(b, snapLsn, at) == Clean(mid) && mid.highest <= mark && snapLsn <= mark
    ensures Replay(b, mark, x) == Clean(x)
    decreases |b|
  {
    hide Decode, ApplyPut;
    if b != [] {
      var d := Decode(b);
      var next := ReplayOne(snapLsn, at, d.rec).value;
      HighestGrows(b[d.consumed..], snapLsn, next);
      Skipped(b[d.consumed..], snapLsn, next, mid, mark, x);
    }
  }

  lemma {:induction false} EachSkipped(segs: seq<bytes>, i: nat, snapLsn: nat, at: Progress, mark: nat, x: Progress)
    requires i < |segs| && ReplayAll(segs, snapLsn, at).Clean? && ReplayAll(segs, snapLsn, at).at.highest <= mark
    requires snapLsn <= mark
    ensures Replay(segs[i], mark, x) == Clean(x)
  {
    hide Replay;
    var mid := Replay(segs[0], snapLsn, at).at;
    HighestGrowsAll(segs[1..], snapLsn, mid);
    if i == 0 {
      Skipped(segs[0], snapLsn, at, mid, mark, x);
    } else {
      EachSkipped(segs[1..], i - 1, snapLsn, mid, mark, x);
    }
  }

  lemma {:induction false} AllSkipped(segs: seq<bytes>, mark: nat, x: Progress)
    requires forall i :: 0 <= i < |segs| ==> Replay(segs[i], mark, x) == Clean(x)
    ensures ReplayAll(segs, mark, x) == Clean(x)
  {
    hide Replay;
    if segs != [] { AllSkipped(segs[1..], mark, x); }
  }

  /** Under the label of a later snapshot, nothing of what the segments held at start-up is applied. */
  lemma BasesSkipped(s: State, full: map<nat, nat>, dir: map<nat, nat>, snapLsn: nat, at0: Progress, mark: nat,
                     x: Progress)
    requires TidyInv(s, full, snapLsn, at0) && Submap(dir, full) && snapLsn <= mark && s.start <= mark + 1
    ensures DirOk(s.ker.files, dir) && ReplayAll(Bases(Listed(s.ker.files, dir)), mark, x) == Clean(x)
  {
    hide TidyInv, ReplayAll, Replay, Listed, Sorted, Shelved, NewLast;
    TidyBasics(s, full, snapLsn, at0);
    TidyReplay(s, full, snapLsn, at0);
    var fs, gs := Listed(s.ker.files, full), Listed(s.ker.files, dir);
    forall i | 0 <= i < |gs| ensures Replay(Bases(gs)[i], mark, x) == Clean(x) {
      ListedAt(s.ker.files, dir, i);
      var y := IndexOf(full, Sorted(dir.Keys)[i]);
      ListedAt(s.ker.files, full, y);
      EachSkipped(Bases(fs), y, snapLsn, at0, mark, x);
    }
    AllSkipped(Bases(gs), mark, x);
  }

  // ---- Records above a watermark ----

  function Above(recs: seq<Rec>, w: nat): seq<Rec> {
    if recs == [] then [] else (if recs[0].lsn > w then [recs[0]] else []) + Above(recs[1..], w)
  }

  lemma {:induction false} AboveAppend(a: seq<Rec>, b: seq<Rec>, w: nat)
    ensures Above(a + b, w) == Above(a, w) + Above(b, w)
  {
    if a == [] {
      assert a + b == b;
    } else {
      assert (a + b)[0] == a[0] && (a + b)[1..] == a[1..] + b;
      AboveAppend(a[1..], b, w);
    }
  }

  lemma {:induction false} AboveNone(recs: seq<Rec>, w: nat)
    requires forall i :: 0 <= i < |recs| ==> recs[i].lsn <= w
    ensures Above(recs, w) == []
  {
    if recs != [] { AboveNone(recs[1..], w); }
  }

  lemma {:induction false} AboveAll(recs: seq<Rec>, w: nat)
    requires forall i :: 0 <= i < |recs| ==> recs[i].lsn > w
    ensures Above(recs, w) == recs
  {
    if recs != [] { AboveAll(recs[1..], w); }
  }

  /** Of consecutively numbered records, those past the first `m`. */
  lemma AboveNumbered(recs: seq<Rec>, start: nat, m: nat)
    requires forall i :: 0 <= i < |recs| ==> recs[i].lsn == start + 1 + i
    ensures Above(recs, start + m) == if m <= |recs| then recs[m..] else []
  {
    hide Above;
    if m <= |recs| {
      assert recs == recs[..m] + recs[m..];
      assert forall i :: 0 <= i < m ==> recs[..m][i] == recs[i];
      assert forall i :: 0 <= i < |recs| - m ==> recs[m..][i] == recs[m + i];
      AboveAppend(recs[..m], recs[m..], start + m);
      AboveNone(recs[..m], start + m);
      AboveAll(recs[m..], start + m);
    } else {
      AboveNone(recs, start + m);
    }
  }

  // ---- Which segments are listed makes no difference above the watermark ----

  function NamedRecs(files: seq<File>, dir: map<nat, nat>, names: seq<nat>): seq<Rec>
    requires DirOk(files, dir) && forall i :: 0 <= i < |names| ==> names[i] in dir
  {
    if names == [] then [] else files[dir[names[0]]].recs + NamedRecs(files, dir, names[1..])
  }

  lemma {:induction false} FlatNamed(files: seq<File>, dir: map<nat, nat>, names: seq<nat>, fs: seq<File>)
    requires DirOk(files, dir) && |fs| == |names|
    requires forall i :: 0 <= i < |names| ==> names[i] in dir && fs[i] == files[dir[names[i]]]
    ensures Flat(fs) == NamedRecs(files, dir, names)
  {
    if names != [] { FlatNamed(files, dir, names[1..], fs[1..]); }
  }

  function Retain(names: seq<nat>, kept: set<nat>): seq<nat> {
    if names == [] then [] else (if names[0] in kept then [names[0]] else []) + Retain(names[1..], kept)
  }

  lemma {:induction false} RetainMembers(names: seq<nat>, kept: set<nat>)
    ensures forall x :: x in Retain(names, kept) <==> x in names && x in kept
    ensures Ascending(names) ==> Ascending(Retain(names, kept))
  {
    if names != [] {
      RetainMembers(names[1..], kept);
      assert names == [names[0]] + names[1..];
      var r := Retain(names[1..], kept);
      if Ascending(names) {
        assert Ascending(names[1..]);
        forall i | 0 <= i < |r| ensures names[0] < r[i] {
          assert r[i] in names[1..];
          var y :| 0 <= y < |names[1..]| && names[1..][y] == r[i];
          assert names[0] < names[y + 1];
        }
      }
    }
  }

  lemma RetainSorted(full: map<nat, nat>, dir: map<nat, nat>)
    requires Submap(dir, full)
    ensures Retain(Sorted(full.Keys), dir.Keys) == Sorted(dir.Keys)
  {
    hide Sorted;
    RetainMembers(Sorted(full.Keys), dir.Keys);
    AscendingUnique(Retain(Sorted(full.Keys), dir.Keys), Sorted(dir.Keys));
  }

  /** Every unlinked segment holds records up to `w` only. */
  ghost predicate UnlinkedUpTo(files: seq<File>, full: map<nat, nat>, dir: map<nat, nat>, w: nat)
    requires DirOk(files, full)
  {
    forall n :: n in full && n !in dir ==> UpTo(files[full[n]].recs, w)
  }

  ghost predicate UpTo(recs: seq<Rec>, w: nat) { forall i :: 0 <= i < |recs| ==> recs[i].lsn <= w }

  lemma {:induction false} AboveRetained(files: seq<File>, full: map<nat, nat>, dir: map<nat, nat>,
                                         names: seq<nat>, w: nat)
    requires DirOk(files, full) && Submap(dir, full) && UnlinkedUpTo(files, full, dir, w)
    requires forall i :: 0 <= i < |names| ==> names[i] in full
    ensures DirOk(files, dir) && forall i :: 0 <= i < |Retain(names, dir.Keys)| ==> Retain(names, dir.Keys)[i] in dir
    ensures Above(NamedRecs(files, dir, Retain(names, dir.Keys)), w) == Above(NamedRecs(files, full, names), w)
  {
    hide UpTo;
    RetainMembers(names, dir.Keys);
    var kept := Retain(names, dir.Keys);
    assert forall i :: 0 <= i < |kept| ==> kept[i] in kept;
    if names != [] {
      AboveRetained(files, full, dir, names[1..], w);
      var r, rest := files[full[names[0]]].recs, NamedRecs(files, full, names[1..]);
      AboveAppend(r, rest, w);
      if names[0] in dir {
        assert kept[1..] == Retain(names[1..], dir.Keys);
        AboveAppend(r, NamedRecs(files, dir, kept[1..]), w);
      } else {
        assert Above(r, w) == [] by { CoveredNone(r, w); }
        assert kept == Retain(names[1..], dir.Keys);
      }
    }
  }

  lemma CoveredNone(recs: seq<Rec>, w: nat)
    requires UpTo(recs, w)
    ensures Above(recs, w) == []
  {
    AboveNone(recs, w);
  }

  lemma ListedNamed(files: seq<File>, dir: map<nat, nat>)
    requires DirOk(files, dir)
    ensures forall i :: 0 <= i < |Sorted(dir.Keys)| ==> Sorted(dir.Keys)[i] in dir
    ensures Flat(Listed(files, dir)) == NamedRecs(files, dir, Sorted(dir.Keys))
  {
    hide Sorted, Listed;
    var names, fs := Sorted(dir.Keys), Listed(files, dir);
    forall i | 0 <= i < |names| ensures names[i] in dir && fs[i] == files[dir[names[i]]] { ListedAt(files, dir, i); }
    FlatNamed(files, dir, names, fs);
  }

  /** Above the watermark, the sealed segments still listed hold what all sealed segments held. */
  lemma AboveSealed(files: seq<File>, full: map<nat, nat>, dir: map<nat, nat>, seg: Segment, w: nat)
    requires Shelved(files, full, seg) && Shelved(files, dir, seg) && Submap(dir, full) && DirOk(files, full)
    requires UnlinkedUpTo(files, full, dir, w)
    ensures DirOk(files, dir) && |Listed(files, full)| > 0 && |Listed(files, dir)| > 0
    ensures Above(Flat(Sealed(files, dir)), w) == Above(Flat(Sealed(files, full)), w)
  {
    hide Sorted, Listed, Flat, Sealed, Shelved, UnlinkedUpTo, NamedRecs, Above;
    ListedActive(files, full, seg);
    ListedActive(files, dir, seg);
    ListedNamed(files, full);
    ListedNamed(files, dir);
    RetainSorted(full, dir);
    AboveRetained(files, full, dir, Sorted(full.Keys), w);
    var a, b, c := Flat(Sealed(files, dir)), Flat(Sealed(files, full)), files[seg.ino].recs;
    AboveAppend(a, c, w);
    AboveAppend(b, c, w);
    Cancel(Above(a, w), Above(b, w), Above(c, w));
  }

  lemma Cancel<T>(a: seq<T>, b: seq<T>, c: seq<T>)
    requires a + c == b + c
    ensures a == b
  {
    assert |a| == |b|;
    assert (a + c)[..|a|] == a && (b + c)[..|b|] == b;
  }

  // ---- Replay over the snapshot ----

  /** A record between label and contents changes nothing: the contents have it already, as the last one. */
  ghost predicate Neutral(recs: seq<Rec>, mark: nat, w: nat, db: Kv)
    requires AllLoggable(recs)
  {
    forall i :: 0 <= i < |recs| && mark < recs[i].lsn <= w ==> Loggable(recs[i]) && ApplyPut(db, recs[i].body) == db
  }

  lemma ReplayNeutral(r: Rec, mark: nat, w: nat, at: Progress)
    requires Loggable(r) && mark <= at.highest <= w && r.lsn <= w
    requires mark < r.lsn ==> ApplyPut(at.db, r.body) == at.db
    ensures ReplayOne(mark, at, r).Some?
    ensures var next := ReplayOne(mark, at, r).value; next.db == at.db && at.highest <= next.highest <= w
  {
    hide Fits, ApplyPut;
  }

  lemma AllAbove(recs: seq<Rec>, w: nat)
    requires Increasing(recs) && recs != [] && recs[0].lsn > w
    ensures forall i :: 0 <= i < |recs| ==> recs[i].lsn > w
  {
  }

  lemma NeutralParts(recs: seq<Rec>, mark: nat, w: nat, db: Kv)
    requires AllLoggable(recs) && Increasing(recs) && recs != [] && Neutral(recs, mark, w, db)
    ensures Loggable(recs[0]) && (mark < recs[0].lsn <= w ==> ApplyPut(db, recs[0].body) == db)
    ensures AllLoggable(recs[1..]) && Increasing(recs[1..]) && Neutral(recs[1..], mark, w, db)
  {
    hide Fits, ApplyPut;
    assert Loggable(recs[0]);
    assert forall i :: 0 <= i < |recs[1..]| ==> recs[1..][i] == recs[i + 1];
  }

  lemma {:induction false} AbsorbCovered(recs: seq<Rec>, mark: nat, w: nat, at: Progress)
    requires AllLoggable(recs) && Increasing(recs) && mark <= w && mark <= at.highest <= w
    requires Neutral(recs, mark, w, at.db)
    ensures AllLoggable(Above(recs, w))
    ensures var end := Absorb(recs, mark, at);
            && end.db == PutAll(at.db, Above(recs, w))
            && (if Above(recs, w) == [] then at.highest <= end.highest <= w
                else end.highest == Above(recs, w)[|Above(recs, w)| - 1].lsn)
  {
    hide Loggable, ApplyPut, ReplayOne, Increasing, Neutral, PutAll;
    if recs == [] {
      PutNone(at.db);
    } else {
      NeutralParts(recs, mark, w, at.db);
      if recs[0].lsn > w {
        AllAbove(recs, w);
        AboveAll(recs, w);
        AbsorbAbove(recs, mark, at);
      } else {
        ReplayNeutral(recs[0], mark, w, at);
        var next := ReplayOne(mark, at, recs[0]).value;
        AbsorbCovered(recs[1..], mark, w, next);
        assert Above(recs, w) == [] + Above(recs[1..], w) == Above(recs[1..], w);
      }
    }
  }

  /** A record that is the last of a log is already in the map the log makes. */
  lemma LastIsNeutral(db: Kv, recs: seq<Rec>)
    requires AllLoggable(recs) && recs != []
    ensures Loggable(recs[|recs| - 1])
    ensures ApplyPut(PutAll(db, recs), recs[|recs| - 1].body) == PutAll(db, recs)
  {
    hide Fits, WellFormed, SplitKv;
    var n := |recs| - 1;
    assert recs == recs[..n] + [recs[n]];
    assert Loggable(recs[n]);
    PutAllAppend(db, recs[..n], [recs[n]]);
    PutOne(PutAll(db, recs[..n]), recs[n]);
  }

  /** Consecutively numbered records, some left out whole segment by segment, still ascend. */
  lemma {:induction false} RetainedIncreasing(files: seq<File>, full: map<nat, nat>, dir: map<nat, nat>,
                                              names: seq<nat>)
    requires DirOk(files, full) && DirOk(files, dir) && Submap(dir, full)
    requires forall i :: 0 <= i < |names| ==> names[i] in full
    requires Increasing(NamedRecs(files, full, names))
    ensures forall i :: 0 <= i < |Retain(names, dir.Keys)| ==> Retain(names, dir.Keys)[i] in dir
    ensures Increasing(NamedRecs(files, dir, Retain(names, dir.Keys)))
    ensures forall r :: r in NamedRecs(files, dir, Retain(names, dir.Keys)) ==> r in NamedRecs(files, full, names)
  {
    RetainMembers(names, dir.Keys);
    var kept := Retain(names, dir.Keys);
    assert forall i :: 0 <= i < |kept| ==> kept[i] in kept;
    if names != [] {
      var r, rest := files[full[names[0]]].recs, NamedRecs(files, full, names[1..]);
      IncreasingTail(r, rest);
      RetainedIncreasing(files, full, dir, names[1..]);
      var sub := NamedRecs(files, dir, Retain(names[1..], dir.Keys));
      if names[0] in dir {
        assert kept[1..] == Retain(names[1..], dir.Keys);
        IncreasingJoin(r, rest, sub);
      } else {
        assert kept == Retain(names[1..], dir.Keys);
      }
    }
  }

  lemma IncreasingTail(a: seq<Rec>, b: seq<Rec>)
    requires Increasing(a + b)
    ensures Increasing(a) && Increasing(b)
  {
    assert forall i :: 0 <= i < |a| ==> a[i] == (a + b)[i];
    assert forall i :: 0 <= i < |b| ==> b[i] == (a + b)[|a| + i];
  }

  lemma IncreasingJoin(a: seq<Rec>, b: seq<Rec>, c: seq<Rec>)
    requires Increasing(a + b) && Increasing(c) && forall r :: r in c ==> r in b
    ensures Increasing(a + c)
  {
    IncreasingTail(a, b);
    forall i, j | 0 <= i < j < |a + c| ensures (a + c)[i].lsn < (a + c)[j].lsn {
      if i < |a| <= j {
        assert c[j - |a|] in b;
        var y :| 0 <= y < |b| && b[y] == c[j - |a|];
        assert (a + b)[i].lsn < (a + b)[|a| + y].lsn;
      }
    }
  }

  // ---- The log on disk ----

  /** What is listed and read, of which the active segment contributes its first `q` records. */
  function ReadLog(s: State, q: nat): seq<Rec>
    requires DirOk(s.ker.files, s.ker.dir) && |Listed(s.ker.files, s.ker.dir)| > 0
    requires s.eng.seg.ino < |s.ker.files| && q <= |Active(s).recs|
  {
    Flat(Sealed(s.ker.files, s.ker.dir)) + Active(s).recs[..q]
  }

  /** The records of the listed segments ascend, and are among those of all segments. */
  lemma ListedIncreasing(files: seq<File>, full: map<nat, nat>, dir: map<nat, nat>)
    requires DirOk(files, full) && DirOk(files, dir) && Submap(dir, full) && Increasing(Flat(Listed(files, full)))
    ensures Increasing(Flat(Listed(files, dir)))
    ensures forall r :: r in Flat(Listed(files, dir)) ==> r in Flat(Listed(files, full))
  {
    hide Sorted, Listed, Flat, Increasing, NamedRecs;
    ListedNamed(files, full);
    ListedNamed(files, dir);
    RetainSorted(full, dir);
    RetainedIncreasing(files, full, dir, Sorted(full.Keys));
  }

  /** Above the contents' watermark, the log read is what all segments held, up to the same place. */
  lemma ReadAbove(s: State, full: map<nat, nat>, q: nat, w: nat, snapLsn: nat, at0: Progress)
    requires TidyInv(s, full, snapLsn, at0) && Shelved(s.ker.files, s.ker.dir, s.eng.seg)
    requires DirOk(s.ker.files, full) && UnlinkedUpTo(s.ker.files, full, s.ker.dir, s.start + w)
    requires s.eng.seg.ino < |s.ker.files| && q <= |Active(s).recs|
    ensures |Listed(s.ker.files, s.ker.dir)| > 0 && |Listed(s.ker.files, full)| > 0 && DirOk(s.ker.files, s.ker.dir)
    ensures var j, log := |Flat(Sealed(s.ker.files, full))| + q, Flat(Listed(s.ker.files, full));
            j <= |log| && Above(ReadLog(s, q), s.start + w) == if w <= j then log[w..j] else []
  {
    hide TidyInv, Shelved, UnlinkedUpTo, Listed, Sealed, Flat, Above, Sorted, BaseSafe;
    TidyBasics(s, full, snapLsn, at0);
    AboveSealed(s.ker.files, full, s.ker.dir, s.eng.seg, s.start + w);
    ListedActive(s.ker.files, full, s.eng.seg);
    ListedActive(s.ker.files, s.ker.dir, s.eng.seg);
    LogNumbered(s, full, snapLsn, at0);
    var pre, part, log := Flat(Sealed(s.ker.files, full)), Active(s).recs[..q], Flat(Listed(s.ker.files, full));
    AboveAppend(Flat(Sealed(s.ker.files, s.ker.dir)), part, s.start + w);
    AboveAppend(pre, part, s.start + w);
    var j := |pre| + q;
    assert log[..j] == pre + part;
    AboveNumbered(log[..j], s.start, w);
    if w <= j { assert log[..j][w..] == log[w..j]; }
  }

  lemma ReadIncreasing(s: State, full: map<nat, nat>, q: nat, snapLsn: nat, at0: Progress)
    requires TidyInv(s, full, snapLsn, at0) && Shelved(s.ker.files, s.ker.dir, s.eng.seg) && DirOk(s.ker.files, full)
    requires s.eng.seg.ino < |s.ker.files| && q <= |Active(s).recs|
    ensures |Listed(s.ker.files, s.ker.dir)| > 0 && DirOk(s.ker.files, s.ker.dir)
    ensures Increasing(ReadLog(s, q)) && forall r :: r in ReadLog(s, q) ==> r in Flat(Listed(s.ker.files, full))
  {
    hide TidyInv, Shelved, Listed, Sealed, Flat, BaseSafe;
    TidyBasics(s, full, snapLsn, at0);
    LogNumbered(s, full, snapLsn, at0);
    ListedIncreasing(s.ker.files, full, s.ker.dir);
    ListedActive(s.ker.files, s.ker.dir, s.eng.seg);
    var all, read := Flat(Listed(s.ker.files, s.ker.dir)), ReadLog(s, q);
    assert forall i :: 0 <= i < |read| ==> read[i] == all[i];
  }

  /** A record of the log with the LSN of the contents' last one is that one. */
  lemma ReadNeutral(recs: seq<Rec>, log: seq<Rec>, head: seq<Rec>, start: nat, mark: nat, db0: Kv)
    requires AllLoggable(recs) && AllLoggable(head) && (log <= head || head <= log)
    requires forall r :: r in recs ==> r in log
    requires forall i :: 0 <= i < |log| ==> log[i].lsn == start + 1 + i
    requires mark <= start + |head| <= mark + 1
    ensures Neutral(recs, mark, start + |head|, PutAll(db0, head))
  {
    hide Fits, WellFormed, PutAll, ApplyPut;
    forall i | 0 <= i < |recs| && mark < recs[i].lsn <= start + |head|
      ensures Loggable(recs[i]) && ApplyPut(PutAll(db0, head), recs[i].body) == PutAll(db0, head)
    {
      assert recs[i] in log;
      var x :| 0 <= x < |log| && log[x] == recs[i];
      assert x == |head| - 1 && head[x] == log[x];
      LastIsNeutral(db0, head);
    }
  }

  /** The contents, then what follows them in the log, is the longer of the two. */
  lemma ContentsThenLog(db0: Kv, all: seq<Rec>, w: nat, j: nat)
    requires AllLoggable(all) && w <= |all| && j <= |all|
    ensures PutAll(PutAll(db0, all[..w]), if w <= j then all[w..j] else []) == PutAll(db0, all[..Max(j, w)])
  {
    hide Loggable;
    if w <= j {
      assert all[..j] == all[..w] + all[w..j];
      PutAllAppend(db0, all[..w], all[w..j]);
    }
  }

  lemma RecsPrefix(lsn: nat, bodies: seq<bytes>, c: nat)
    requires AllWellFormed(bodies) && c <= |bodies|
    ensures RecsOf(lsn, bodies[..c]) <= RecsOf(lsn, bodies)
  {
    hide RecsOf, WellFormed;
    assert bodies == bodies[..c] + bodies[c..];
    RecsAppend(lsn, bodies[..c], bodies[c..]);
  }

  /** What absorbing the log read leaves, over contents holding the first `w` records. */
  lemma AbsorbRetired(read: seq<Rec>, log: seq<Rec>, all: seq<Rec>, w: nat, j: nat, start: nat, mark: nat, db0: Kv)
    requires AllLoggable(read) && Increasing(read) && AllLoggable(all) && log <= all && w <= |all| && j <= |log|
    requires forall r :: r in read ==> r in log
    requires forall i :: 0 <= i < |all| ==> all[i].lsn == start + 1 + i
    requires mark <= start + w <= mark + 1
    requires Above(read, start + w) == if w <= j then log[w..j] else []
    ensures var at := Absorb(read, mark, Progress(PutAll(db0, all[..w]), mark));
            && at.db == PutAll(db0, all[..Max(j, w)])
            && at.highest + 1 >= start + Max(j, w) && at.highest >= mark
  {
    hide Loggable, PutAll, Absorb, Above, Neutral, Increasing;
    assert AllLoggable(all[..w]);
    ReadNeutral(read, log, all[..w], start, mark, db0);
    AbsorbCovered(read, mark, start + w, Progress(PutAll(db0, all[..w]), mark));
    if w <= j { assert log[w..j] == all[w..j]; }
    ContentsThenLog(db0, all, w, j);
  }

  /** Replay ends with the longer of contents and log: the first `j` records, or those of the first `c` requests. */
  ghost predicate EndsAt(s: State, c: nat, j: nat, mark: nat, at: Progress)
    requires AllWellFormed(s.hist) && c <= |s.hist|
  {
    var all, w := RecsOf(s.start, s.hist), |RecsOf(s.start, s.hist[..c])|;
    && AllLoggable(all) && j <= |all| && w <= |all|
    && at.db == PutAll(s.db0, all[..Max(j, w)])
    && at.highest + 1 >= s.start + Max(j, w) && at.highest >= mark
  }

  /** The label is the contents' watermark or one less, and no unlinked segment goes past it. */
  ghost predicate Compacted(s: State, full: map<nat, nat>, c: nat, mark: nat)
    requires AllWellFormed(s.hist) && c <= |s.hist|
  {
    && DirOk(s.ker.files, full)
    && var w := |RecsOf(s.start, s.hist[..c])|;
    && mark <= s.start + w <= mark + 1 && UnlinkedUpTo(s.ker.files, full, s.ker.dir, s.start + w)
  }

  lemma ReplayRetired(s: State, full: map<nat, nat>, imgs: seq<bytes>, c: nat, snapLsn: nat, at0: Progress, mark: nat)
      returns (j: nat, at: Progress)
    requires AllWellFormed(s.hist) && c <= |s.hist| && Compacted(s, full, c, mark) && snapLsn < s.start
    requires s.lsn < U64 && AllSurvive(s, imgs) && Legible(s, imgs) && TidyInv(s, full, snapLsn, at0) && Inv(s)
    ensures EndsAt(s, c, j, mark, at) && HasSafe(s, j)
    ensures var o := ReplayAll(imgs, mark, Progress(Exec(s.db0, s.hist[..c]), mark)); o == Clean(at) || o == Tail(at)
  {
    hide RouteInv, BatchInv, IoInv, DurableInv, ReplyInv, OutInv, Buffers.BufferInv, ContentInv, HistoryOk, SpansOk,
         WatermarkOk, TidyInv, AllSurvive, Legible, Shelved, NewLast, BaseSafe, AllPlanned, ReplayAll, Listed, Flat,
         Loggable, Survives, RecsOf, Sealed, Bases, WellFormed, HasSafe, UnlinkedUpTo, Exec, PutAll, Absorb, Above,
         Submap, Increasing, ReadCount;
    var dir, files := s.ker.dir, s.ker.files;
    var all, head, db1 := RecsOf(s.start, s.hist), RecsOf(s.start, s.hist[..c]), Exec(s.db0, s.hist[..c]);
    var x := Progress(db1, mark);
    HistoryFromBatch(s);
    TidyBasics(s, full, snapLsn, at0);
    ShelvedNow(s, full, snapLsn, at0);
    ListedPlanned(s, full, dir, snapLsn, at0);
    BasesSkipped(s, full, dir, snapLsn, at0, mark, x);
    ReplayListing(s, imgs, mark, x, x);
    var q := ReadCount(s, imgs[|imgs| - 1]);
    SafeWithin(s, full, imgs[|imgs| - 1], snapLsn, at0);
    ListedActive(files, full, s.eng.seg);
    j := |Flat(Sealed(files, full))| + q;
    assert (Flat(Sealed(files, dir)) + Active(s).recs)[..|Flat(Sealed(files, dir))| + q] == ReadLog(s, q);
    at := RetiredEnds(s, full, c, q, snapLsn, at0, mark);
  }

  /** What is left of the log, absorbed over the snapshot's contents. */
  lemma RetiredEnds(s: State, full: map<nat, nat>, c: nat, q: nat, snapLsn: nat, at0: Progress, mark: nat)
      returns (at: Progress)
    requires AllWellFormed(s.hist) && c <= |s.hist| && Compacted(s, full, c, mark)
    requires s.lsn < U64 && TidyInv(s, full, snapLsn, at0) && HistoryOk(s)
    requires Shelved(s.ker.files, s.ker.dir, s.eng.seg) && DirOk(s.ker.files, s.ker.dir) && DirOk(s.ker.files, full)
    requires |Listed(s.ker.files, s.ker.dir)| > 0 && |Listed(s.ker.files, full)| > 0
    requires s.eng.seg.ino < |s.ker.files| && q <= |Active(s).recs| && AllLoggable(ReadLog(s, q))
    ensures at == Absorb(ReadLog(s, q), mark, Progress(Exec(s.db0, s.hist[..c]), mark))
    ensures EndsAt(s, c, |Flat(Sealed(s.ker.files, full))| + q, mark, at)
  {
    hide HistoryOk, TidyInv, Shelved, Listed, Flat, Loggable, RecsOf, Sealed, WellFormed, Exec, PutAll, Absorb, Above,
         Increasing, UnlinkedUpTo, ReadLog;
    var head, log := RecsOf(s.start, s.hist[..c]), Flat(Listed(s.ker.files, full));
    var j := |Flat(Sealed(s.ker.files, full))| + q;
    ReadIncreasing(s, full, q, snapLsn, at0);
    ReadAbove(s, full, q, |head|, snapLsn, at0);
    AllNumbered(s, c, full, snapLsn, at0);
    AbsorbRetired(ReadLog(s, q), log, RecsOf(s.start, s.hist), |head|, j, s.start, mark, s.db0);
    at := Absorb(ReadLog(s, q), mark, Progress(Exec(s.db0, s.hist[..c]), mark));
  }

  /** The history's records are numbered; the log and the contents hold prefixes of them. */
  lemma AllNumbered(s: State, c: nat, full: map<nat, nat>, snapLsn: nat, at0: Progress)
    requires TidyInv(s, full, snapLsn, at0) && HistoryOk(s) && s.lsn < U64 && c <= |s.hist|
    ensures DirOk(s.ker.files, full)
    ensures var all, head := RecsOf(s.start, s.hist), RecsOf(s.start, s.hist[..c]);
            && AllLoggable(all) && |head| <= |all| && head == all[..|head|] && Flat(Listed(s.ker.files, full)) <= all
            && (forall i :: 0 <= i < |all| ==> all[i].lsn == s.start + 1 + i)
            && Exec(s.db0, s.hist[..c]) == PutAll(s.db0, all[..|head|])
  {
    hide TidyInv, RecsOf, Exec, Flat, Listed, Loggable, PutAll, WellFormed;
    HistoryLoggable(s);
    HistoryFits(s, full, snapLsn, at0);
    RecsLoggable(s.start, s.hist);
    RecsNumbered(s.start, s.hist);
    RecsPrefix(s.start, s.hist, c);
    RecsPrefix(s.start, s.hist, IngestedUpTo(s));
    var all, head := RecsOf(s.start, s.hist), RecsOf(s.start, s.hist[..c]);
    assert forall i :: 0 <= i < |head| ==> head[i] == all[i];
    ExecIsPutAll(s.db0, s.start, s.hist[..c]);
  }

  // ---- The theorem ----

  /**
   Crash recovery with compaction. A snapshot holds the state after the first `c` requests and is labelled,
   as the source labels it, with the LSN of the last PUT among them or one less. Segments may have been
   unlinked, in any order, if they hold no record past those. Writes may have been short, interrupted and
   retried, and the crash may have done anything to bytes that are not fsynced, as long as the first record
   it broke fails to decode; `NoTornLegible` says when that needs no checksum. Then recovery from the snapshot
   and what is left of the segments returns the state after a prefix of the requests: it has every batch that
   is safe, and numbering does not fall behind it.
   */
  lemma RetiredRecovers(states: seq<State>, steps: seq<Step>, snapLsn: nat, snapDb: Kv,
                        snap: Option<bytes>, mark: nat, c: nat, imgs: seq<bytes>) returns (m: nat, next: nat)
    requires ForwardRun(states, steps) && CleanStart(states[0], snapLsn, Progress(snapDb, snapLsn))
    requires states[|steps|].lsn < U64 && AllSurvive(states[|steps|], imgs) && Legible(states[|steps|], imgs)
    requires AllWellFormed(states[|steps|].hist) && c <= |states[|steps|].hist|
    requires Base(snap) == Some((mark, Exec(states[|steps|].db0, states[|steps|].hist[..c])))
    requires Compacted(states[|steps|], Seen(states, |steps|), c, mark)
    ensures var s := states[|steps|];
            && m <= |s.hist| && |s.locs| <= |s.spans|
            && RecoverFrom(snap, imgs) == Recovered(Exec(s.db0, s.hist[..m]), next)
            && |RecsOf(s.start, s.hist[..c])| <= |RecsOf(s.start, s.hist[..m])|
            && s.start + |RecsOf(s.start, s.hist[..m])| <= next
            && (forall k: nat :: k < |s.locs| && Safe(s, k) ==> PutsWithin(s, k, m))
  {
    hide Init, Enabled, Next, CleanStart, TidyInv, RouteInv, BatchInv, IoInv, DurableInv, ReplyInv, OutInv,
         Buffers.BufferInv, Forward, ContentInv, Base, RecsOf, Exec, WellFormed, ReplayAll, HistoryOk, SpansOk,
         WatermarkOk, AllSurvive, Legible, Loggable, Compacted, PutAll, Safe, PutsWithin;
    var s, n := states[|steps|], |steps|;
    var at0 := Progress(snapDb, snapLsn);
    TidyAlways(states, steps, n, snapLsn, at0);
    InvAlways(states, steps, n);
    HistoryFromBatch(s);
    StartAbove(s, Seen(states, n), snapLsn, snapDb);
    var j, at := ReplayRetired(s, Seen(states, n), imgs, c, snapLsn, at0, mark);
    next := at.highest + 1;
    m := PrefixFor(s.start, s.hist, Max(j, |RecsOf(s.start, s.hist[..c])|));
    RecsPrefix(s.start, s.hist, m);
    assert AllLoggable(RecsOf(s.start, s.hist[..m])) by {
      PrefixLoggable(RecsOf(s.start, s.hist[..m]), RecsOf(s.start, s.hist));
    }
    ExecIsPutAll(s.db0, s.start, s.hist[..m]);
    forall k: nat | k < |s.locs| && Safe(s, k) ensures PutsWithin(s, k, m) {
      BatchWithin(s, k, m);
    }
  }

  lemma PrefixLoggable(a: seq<Rec>, b: seq<Rec>)
    requires a <= b && AllLoggable(b)
    ensures AllLoggable(a)
  {
    hide Loggable;
  }

  /** In Sync mode and without short or retried writes, it has every PUT already answered. */
  lemma RetiredAnswered(states: seq<State>, steps: seq<Step>, snapLsn: nat, snapDb: Kv,
                        snap: Option<bytes>, mark: nat, c: nat, imgs: seq<bytes>) returns (m: nat, next: nat)
    requires CalmRun(states, steps) && states[|steps|].eng.mode == Sync
    requires CleanStart(states[0], snapLsn, Progress(snapDb, snapLsn))
    requires states[|steps|].lsn < U64 && CrashImages(states[|steps|], imgs)
    requires AllWellFormed(states[|steps|].hist) && c <= |states[|steps|].hist|
    requires Base(snap) == Some((mark, Exec(states[|steps|].db0, states[|steps|].hist[..c])))
    requires Compacted(states[|steps|], Seen(states, |steps|), c, mark)
    ensures var s := states[|steps|];
            && m <= |s.hist|
            && RecoverFrom(snap, imgs) == Recovered(Exec(s.db0, s.hist[..m]), next)
            && forall id: nat :: id < |s.hist| && Answered(s, id) && IsPut(s.hist[id]) ==>
              id < m && LsnOf(s, id) <= next
  {
    hide Init, Enabled, Next, CleanStart, NoTorn, Base, Exec, WellFormed, CrashImages, RecoverFrom, Calm, Safe,
         PutsWithin, Answered, SmoothState, Inv, RecsOf, SteadySteps.SteadyInv, SteadySteps.Steady, Compacted, Seen,
         AllSurvive, Legible, TidyInv;
    var s, n := states[|steps|], |steps|;
    CalmIsSteady(states, steps);
    SteadyIsForward(states, steps);
    SteadyAlways(states, steps, n);
    InvAlways(states, steps, n);
    SmoothAlways(states, steps, n);
    TidyAlways(states, steps, n, snapLsn, Progress(snapDb, snapLsn));
    NoTornLegible(s, Seen(states, n), imgs, snapLsn, Progress(snapDb, snapLsn));
    m, next := RetiredRecovers(states, steps, snapLsn, snapDb, snap, mark, c, imgs);
    forall id: nat | id < |s.hist| && Answered(s, id) && IsPut(s.hist[id]) ensures id < m && LsnOf(s, id) <= next {
      var k := AnsweredSafe(s, id);
      assert PutsWithin(s, k, m);
      WithinOne(s, k, m, id);
      InPrefix(s, m, id);
    }
  }

  // ---- Without a crash ----

  lemma ReadWhole(s: State)
    requires Shelved(s.ker.files, s.ker.dir, s.eng.seg)
    ensures DirOk(s.ker.files, s.ker.dir) && |Listed(s.ker.files, s.ker.dir)| > 0 && s.eng.seg.ino < |s.ker.files|
    ensures ReadLog(s, |Active(s).recs|) == Flat(Listed(s.ker.files, s.ker.dir))
  {
    hide Shelved, Listed, Flat, Sealed;
    ListedActive(s.ker.files, s.ker.dir, s.eng.seg);
    assert Active(s).recs[..|Active(s).recs|] == Active(s).recs;
  }

  lemma QuietAbsorb(s: State, full: map<nat, nat>, c: nat, snapLsn: nat, at0: Progress, mark: nat)
      returns (at: Progress)
    requires AllWellFormed(s.hist) && c <= |s.hist| && Compacted(s, full, c, mark)
    requires s.lsn < U64 && TidyInv(s, full, snapLsn, at0) && HistoryOk(s) && ContentInv(s)
    requires Shelved(s.ker.files, s.ker.dir, s.eng.seg)
    ensures DirOk(s.ker.files, s.ker.dir) && AllPlanned(Listed(s.ker.files, s.ker.dir))
    ensures AllLoggable(Flat(Listed(s.ker.files, s.ker.dir)))
    ensures EndsAt(s, c, |Flat(Listed(s.ker.files, full))|, mark, at)
    ensures at == Absorb(Flat(Listed(s.ker.files, s.ker.dir)), mark, Progress(Exec(s.db0, s.hist[..c]), mark))
  {
    hide HistoryOk, ContentInv, TidyInv, Shelved, Listed, Flat, Loggable, RecsOf, Sealed, WellFormed, Exec, Absorb,
         AllPlanned, BaseSafe, DirOk, Submap, PlacesNamed, ReadLog, Compacted, EndsAt;
    TidyBasics(s, full, snapLsn, at0);
    var dir, files, q := s.ker.dir, s.ker.files, |Active(s).recs|;
    ListedPlanned(s, full, dir, snapLsn, at0);
    FlatLoggable(Listed(files, dir));
    ListedActive(files, full, s.eng.seg);
    ReadWhole(s);
    at := RetiredEnds(s, full, c, q, snapLsn, at0, mark);
  }

  /**
   The same without a crash, in every mode and whatever was retried: once the channel is drained and no write
   is outstanding, recovery from the snapshot and the segments left returns exactly the map stage 2 holds.
   */
  lemma RetiredQuiet(states: seq<State>, steps: seq<Step>, snapLsn: nat, snapDb: Kv,
                     snap: Option<bytes>, mark: nat, c: nat, segs: seq<bytes>) returns (next: nat)
    requires ForwardRun(states, steps) && CleanStart(states[0], snapLsn, Progress(snapDb, snapLsn))
    requires var s := states[|steps|]; NoWrites(s) && WritesIn(s.chan) == [] && s.lsn < U64 && SegmentData(s, segs)
    requires AllWellFormed(states[|steps|].hist) && c <= |states[|steps|].hist|
    requires Base(snap) == Some((mark, Exec(states[|steps|].db0, states[|steps|].hist[..c])))
    requires Compacted(states[|steps|], Seen(states, |steps|), c, mark)
    ensures var s := states[|steps|]; RecoverFrom(snap, segs) == Recovered(s.db, next) && s.lsn <= next
  {
    hide Init, Enabled, Next, CleanStart, TidyInv, Inv, Forward, Base, RecsOf, Exec, WellFormed, ReplayAll,
         Compacted, NoWrites, WritesIn, SegmentData, Seen;
    var s, n := states[|steps|], |steps|;
    TidyAlways(states, steps, n, snapLsn, Progress(snapDb, snapLsn));
    InvAlways(states, steps, n);
    var at := QuietCompacted(s, Seen(states, n), c, snapLsn, snapDb, mark, segs);
    next := at.highest + 1;
  }

  lemma QuietCompacted(s: State, full: map<nat, nat>, c: nat, snapLsn: nat, snapDb: Kv, mark: nat, segs: seq<bytes>)
      returns (at: Progress)
    requires AllWellFormed(s.hist) && c <= |s.hist| && Compacted(s, full, c, mark)
    requires s.lsn < U64 && NoWrites(s) && WritesIn(s.chan) == [] && SegmentData(s, segs)
    requires TidyInv(s, full, snapLsn, Progress(snapDb, snapLsn)) && Inv(s)
    ensures ReplayAll(segs, mark, Progress(Exec(s.db0, s.hist[..c]), mark)) == Clean(at)
    ensures at.db == s.db && s.lsn <= at.highest + 1
  {
    hide TidyInv, RouteInv, BatchInv, IoInv, DurableInv, ReplyInv, OutInv, Buffers.BufferInv, ContentInv, RecsOf,
         Exec, WellFormed, ReplayAll, SpansOk, WatermarkOk, Loggable, Compacted, NoWrites, WritesIn, SegmentData,
         Listed, Flat, Absorb, AllPlanned, Bases, Shelved, NewLast, BaseSafe, HistoryOk, EndsAt, PlacesNamed, DirOk,
         Submap;
    var at0, x := Progress(snapDb, snapLsn), Progress(Exec(s.db0, s.hist[..c]), mark);
    HistoryFromBatch(s);
    StartAbove(s, full, snapLsn, snapDb);
    MarkAbove(s, full, c, mark);
    ShelvedNow(s, full, snapLsn, at0);
    at := QuietAbsorb(s, full, c, snapLsn, at0, mark);
    BasesSkipped(s, full, s.ker.dir, snapLsn, at0, mark, x);
    QuietReplay(s, segs, mark, x);
    HistoryFits(s, full, snapLsn, at0);
    AllIngested(s);
    EndsWhole(s, c, mark, at);
  }

  lemma MarkAbove(s: State, full: map<nat, nat>, c: nat, mark: nat)
    requires AllWellFormed(s.hist) && c <= |s.hist| && Compacted(s, full, c, mark)
    ensures s.start <= mark + 1
  {
    hide RecsOf, WellFormed;
  }

  lemma QuietReplay(s: State, segs: seq<bytes>, mark: nat, x: Progress)
    requires IoInv(s) && NoWrites(s) && SegmentData(s, segs) && NewLast(s.ker.files, s.ker.dir)
    requires AllPlanned(Listed(s.ker.files, s.ker.dir))
    requires ReplayAll(Bases(Listed(s.ker.files, s.ker.dir)), mark, x) == Clean(x)
    ensures AllLoggable(Flat(Listed(s.ker.files, s.ker.dir)))
    ensures ReplayAll(segs, mark, x) == Clean(Absorb(Flat(Listed(s.ker.files, s.ker.dir)), mark, x))
  {
    hide IoInv, NoWrites, NewLast, AllPlanned, Listed, Flat, ReplayAll, Absorb, Loggable, OldFirst;
    ListedOldFirst(s.ker.files, s.ker.dir);
    var fs := Listed(s.ker.files, s.ker.dir);
    assert segs == Wants(fs) by {
      forall i | 0 <= i < |fs| ensures fs[i].data == fs[i].want { QuietFile(s, i); }
    }
    ReplayWhole(fs, mark, x, x);
  }

  lemma EndsWhole(s: State, c: nat, mark: nat, at: Progress)
    requires HistoryOk(s) && c <= |s.hist| && EndsAt(s, c, |RecsOf(s.start, s.hist)|, mark, at)
    ensures at.db == s.db && s.lsn <= at.highest + 1
  {
    hide RecsOf, Exec, PutAll, Loggable, WellFormed;
    var all := RecsOf(s.start, s.hist);
    assert all[..|all|] == all;
    ExecIsPutAll(s.db0, s.start, s.hist);
  }
}
