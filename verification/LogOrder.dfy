/**
 The log across segments, in runs whose rotations never go back, with or without retries and unlinks:
 listing by name every segment there has been gives their old content, then every record this run has
 placed, in LSN order.
 */
module LogOrder {
  import opened Bytes
  import opened Types
  import opened Wire
  import opened WalFormat
  import opened Recovery
  import opened Stage2
  import opened Acker
  import opened IoWork
  import opened IoLine
  import opened WalCore
  import opened Pipeline
  import opened Names
  import opened Routing
  import opened Batches
  import opened BatchSteps
  import opened Storage
  import opened Durability
  import opened Content
  import opened CalmSteps
  import opened CrashReplay

  ghost predicate DirOk(files: seq<File>, dir: map<nat, nat>) {
    forall n :: n in dir ==> dir[n] < |files|
  }

  /** The segment files in listing order. */
  function Listed(files: seq<File>, dir: map<nat, nat>): (fs: seq<File>)
    requires DirOk(files, dir)
    ensures |fs| == |Sorted(dir.Keys)|
  {
    var names := Sorted(dir.Keys);
    seq(|names|, i requires 0 <= i < |names| => NamedIn(dir, i); files[dir[names[i]]])
  }

  lemma NamedIn(dir: map<nat, nat>, i: nat)
    requires i < |Sorted(dir.Keys)|
    ensures Sorted(dir.Keys)[i] in dir
  {
    hide Sorted;
    assert Sorted(dir.Keys)[i] in Sorted(dir.Keys);
  }

  lemma ListedAt(files: seq<File>, dir: map<nat, nat>, i: nat)
    requires DirOk(files, dir) && i < |Sorted(dir.Keys)|
    ensures Sorted(dir.Keys)[i] in dir && Listed(files, dir)[i] == files[dir[Sorted(dir.Keys)[i]]]
  {
    NamedIn(dir, i);
  }

  /** How many requests the batches ingested so far reach up to. */
  function IngestedUpTo(s: State): nat
    requires |s.locs| <= |s.spans|
  {
    if s.locs == [] then 0 else s.spans[|s.locs| - 1].first + s.spans[|s.locs| - 1].n
  }

  /** What the file held at start-up is still fsynced. */
  ghost predicate BaseSafe(f: File) {
    |f.base| <= |f.want| && forall p: nat :: p < |f.base| ==> SyncedAt(f, p)
  }

  /** Each name has a file of its own, and the active segment's name is the highest. */
  ghost predicate Shelved(files: seq<File>, dir: map<nat, nat>, seg: Segment) {
    && DirOk(files, dir)
    && (forall m, n :: m in dir && n in dir && m != n ==> dir[m] != dir[n])
    && IsMax(seg.start, dir.Keys) && dir[seg.start] == seg.ino
  }

  ghost predicate Submap(dir: map<nat, nat>, full: map<nat, nat>) {
    forall n :: n in dir ==> n in full && full[n] == dir[n]
  }

  /** No segment listed after one this run has written to held anything at start-up. */
  ghost predicate NewLast(files: seq<File>, dir: map<nat, nat>)
    requires DirOk(files, dir)
  {
    forall m, n :: m in dir && n in dir && m < n && files[dir[m]].recs != [] ==> files[dir[n]].base == []
  }

  ghost predicate PlacesNamed(locs: seq<Loc>, dir: map<nat, nat>) {
    forall k :: 0 <= k < |locs| ==> locs[k].ino in dir.Values
  }

  /** `full` maps every segment name there has been; an unlink takes a name out of the directory only. */
  ghost predicate TidyInv(s: State, full: map<nat, nat>, snapLsn: nat, at0: Progress) {
    && SpansFit(s) && IngestedUpTo(s) <= |s.hist|
    && s.start > 0
    && Shelved(s.ker.files, full, s.eng.seg) && Submap(s.ker.dir, full)
    && BaseSafe(Active(s))
    && PlacesNamed(s.locs, full)
    && NewLast(s.ker.files, full)
    && Flat(Listed(s.ker.files, full)) == RecsOf(s.start, s.hist[..IngestedUpTo(s)])
    && ReplayAll(Bases(Listed(s.ker.files, full)), snapLsn, at0) == Clean(Progress(s.db0, s.start - 1))
  }

  lemma TidyBasics(s: State, full: map<nat, nat>, snapLsn: nat, at0: Progress)
    requires TidyInv(s, full, snapLsn, at0)
    ensures SpansFit(s) && IngestedUpTo(s) <= |s.hist| && s.start > 0
    ensures Shelved(s.ker.files, full, s.eng.seg) && s.eng.seg.ino < |s.ker.files| && DirOk(s.ker.files, full)
    ensures Submap(s.ker.dir, full) && DirOk(s.ker.files, s.ker.dir)
    ensures BaseSafe(Active(s)) && PlacesNamed(s.locs, full)
  {
    hide RecsOf, WellFormed, Flat, ReplayAll, Listed, Bases, BaseSafe;
  }

  /** The active segment is listed last. */
  lemma ActiveLast(files: seq<File>, dir: map<nat, nat>, seg: Segment)
    requires Shelved(files, dir, seg)
    ensures var fs := Listed(files, dir);
            && |fs| > 0 && fs[|fs| - 1] == files[seg.ino] && fs == fs[..|fs| - 1] + [files[seg.ino]]
            && Sorted(dir.Keys)[|fs| - 1] == seg.start
  {
    hide Sorted, Listed;
    SortedMax(dir.Keys, seg.start);
    ListedAt(files, dir, |Sorted(dir.Keys)| - 1);
  }

  /** No other listed file is the active one. */
  lemma OthersOld(files: seq<File>, dir: map<nat, nat>, seg: Segment, i: nat)
    requires Shelved(files, dir, seg) && i < |Listed(files, dir)| - 1
    ensures Sorted(dir.Keys)[i] in dir && dir[Sorted(dir.Keys)[i]] != seg.ino
  {
    hide Sorted, Listed, IsMax;
    ActiveLast(files, dir, seg);
    NamedIn(dir, i);
    var names := Sorted(dir.Keys);
    assert names[i] < names[|names| - 1];
    NamedIn(dir, |names| - 1);
  }

  /** In listing order, old content comes first. */
  lemma ListedOldFirst(files: seq<File>, dir: map<nat, nat>)
    requires DirOk(files, dir) && NewLast(files, dir)
    ensures OldFirst(Listed(files, dir))
  {
    hide Sorted, Listed;
    var fs, names := Listed(files, dir), Sorted(dir.Keys);
    forall i, j | 0 <= i < j < |fs| && fs[i].recs != [] ensures fs[j].base == [] {
      assert names[i] < names[j];
      ListedAt(files, dir, i);
      ListedAt(files, dir, j);
    }
  }

  // ---- Frames ----

  lemma {:induction false} FlatSame(fs: seq<File>, gs: seq<File>)
    requires |fs| == |gs| && forall i :: 0 <= i < |fs| ==> SameContent(fs[i], gs[i])
    ensures Flat(gs) == Flat(fs)
  {
    if fs != [] {
      assert SameContent(fs[0], gs[0]);
      FlatSame(fs[1..], gs[1..]);
    }
  }

  /** The files' plans stay, and so does old content that is fsynced. */
  ghost predicate KeepsFile(f: File, f': File) {
    SameContent(f, f') && (BaseSafe(f) ==> BaseSafe(f'))
  }

  ghost predicate KeepsFiles(s: State, t: State) {
    && |s.ker.files| == |t.ker.files|
    && forall i :: 0 <= i < |s.ker.files| ==> KeepsFile(s.ker.files[i], t.ker.files[i])
  }

  lemma ListedSame(s: State, t: State, full: map<nat, nat>)
    requires KeepsFiles(s, t) && DirOk(s.ker.files, full)
    ensures DirOk(t.ker.files, full)
    ensures Flat(Listed(t.ker.files, full)) == Flat(Listed(s.ker.files, full))
    ensures Bases(Listed(t.ker.files, full)) == Bases(Listed(s.ker.files, full))
    ensures NewLast(s.ker.files, full) ==> NewLast(t.ker.files, full)
  {
    hide Sorted, Listed, Flat, BaseSafe;
    var fs, gs := Listed(s.ker.files, full), Listed(t.ker.files, full);
    forall i | 0 <= i < |fs| ensures SameContent(fs[i], gs[i]) {
      ListedAt(s.ker.files, full, i);
      ListedAt(t.ker.files, full, i);
      assert KeepsFile(s.ker.files[full[Sorted(full.Keys)[i]]], t.ker.files[full[Sorted(full.Keys)[i]]]);
    }
    FlatSame(fs, gs);
    assert Bases(gs) == Bases(fs);
    forall n | n in full ensures SameContent(s.ker.files[full[n]], t.ker.files[full[n]]) {
      assert KeepsFile(s.ker.files[full[n]], t.ker.files[full[n]]);
    }
  }

  lemma TidyFrame(s: State, t: State, full: map<nat, nat>, snapLsn: nat, at0: Progress)
    requires TidyInv(s, full, snapLsn, at0) && Extends(s, t) && SpansFit(t) && t.locs == s.locs
    requires KeepsFiles(s, t) && Submap(t.ker.dir, full)
    requires t.eng.seg.start == s.eng.seg.start && t.eng.seg.ino == s.eng.seg.ino
    ensures TidyInv(t, full, snapLsn, at0)
  {
    hide RecsOf, Exec, WellFormed, Flat, ReplayAll, Sorted, NewLast, BaseSafe, Listed, Bases, IsMax, Submap,
         PlacesNamed;
    ListedSame(s, t, full);
    ShelfIno(s.ker.files, full, s.eng.seg);
    assert BaseSafe(Active(t)) by { assert KeepsFile(Active(s), Active(t)); }
    assert IngestedUpTo(t) == IngestedUpTo(s);
    assert t.hist[..IngestedUpTo(t)] == s.hist[..IngestedUpTo(s)];
  }

  // ---- Ingestion ----

  /** The records up to one batch, then that batch's, are the records up to the next. */
  lemma IngestRecs(s: State, k: nat)
    requires HistoryOk(s) && SpansOk(s) && k < |s.spans|
    ensures var end := if k == 0 then 0 else s.spans[k - 1].first + s.spans[k - 1].n;
            && end <= s.spans[k].first && s.spans[k].first + s.spans[k].n <= |s.hist|
            && RecsOf(s.start, s.hist[..s.spans[k].first + s.spans[k].n])
               == RecsOf(s.start, s.hist[..end]) + RecsOf(s.spans[k].lo, Slice(s, s.spans[k]))
            && |RecsOf(s.start, s.hist[..s.spans[k].first + s.spans[k].n])| == s.spans[k].hi - s.start
  {
    hide RecsOf, Exec, WellFormed;
    var sp := s.spans[k];
    var end := if k == 0 then 0 else s.spans[k - 1].first + s.spans[k - 1].n;
    assert SpanOk(s, sp);
    var upto, first := s.hist[..sp.first + sp.n], s.hist[..sp.first];
    assert upto == first + Slice(s, sp);
    RecsAppend(s.start, first, Slice(s, sp));
    var before, gap := s.hist[..end], s.hist[end..sp.first];
    assert first == before + gap;
    RecsAppend(s.start, before, gap);
    assert |RecsOf(s.start, before)| == sp.lo - s.start by { EndCount(s, k); }
  }

  lemma EndCount(s: State, k: nat)
    requires HistoryOk(s) && SpansOk(s) && k < |s.spans|
    ensures var end := if k == 0 then 0 else s.spans[k - 1].first + s.spans[k - 1].n;
            end <= |s.hist| && |RecsOf(s.start, s.hist[..end])| == s.spans[k].lo - s.start
  {
    hide RecsOf, Exec, WellFormed;
    assert s.spans[0].lo == s.start;
    if k > 0 {
      var sp := s.spans[k - 1];
      assert SpanOk(s, sp) && sp.hi == s.spans[k].lo;
      assert s.hist[..sp.first + sp.n] == s.hist[..sp.first] + Slice(s, sp);
      RecsAppend(s.start, s.hist[..sp.first], Slice(s, sp));
    } else {
      assert s.hist[..0] == [];
      NoRequests(s.start);
    }
  }

  lemma NoRequests(lsn: nat)
    ensures RecsOf(lsn, []) == []
  {
  }

  lemma TidyReceive(s: State, full: map<nat, nat>, snapLsn: nat, at0: Progress)
    requires TidyInv(s, full, snapLsn, at0) && IoInv(s) && BatchInv(s) && CanReceive(s) && s.chan[0].WriteMsg?
    ensures TidyInv(ReceiveWrite(s), full, snapLsn, at0)
  {
    hide BatchInv, LineInv, PlanOk, ResultsOk, RecsOf, WellFormed, EncodeLog, LineOf, TidyInv, Redo;
    AssertionsHold(s);
    BatchBasics(s);
    IngestExtends(s);
    IngestLocs(s);
    HistoryFromBatch(s);
    TidyBasics(s, full, snapLsn, at0);
    var t := ReceiveWrite(s);
    BatchLo(s);
    TidyPlaced(s, t, full, Encoded(s.chan[0].batch).out, snapLsn, at0);
  }

  /** `t` is `s` with the records of the next batch added to the active file. */
  ghost predicate Placed(s: State, t: State, out: bytes)
    requires SpansFit(s) && s.eng.seg.ino < |s.ker.files| && |s.locs| < |s.spans|
  {
    && t.hist == s.hist && t.spans == s.spans && t.start == s.start && t.db0 == s.db0
    && |t.locs| == |s.locs| + 1 && t.locs[..|s.locs|] == s.locs && t.locs[|s.locs|].ino == s.eng.seg.ino
    && t.eng.seg.start == s.eng.seg.start && t.eng.seg.ino == s.eng.seg.ino && t.ker.dir == s.ker.dir
    && t.ker.files == s.ker.files[s.eng.seg.ino := Grown(Active(s), SpanRecs(s, |s.locs|), out)]
  }

  lemma TidyPlaced(s: State, t: State, full: map<nat, nat>, out: bytes, snapLsn: nat, at0: Progress)
    requires TidyInv(s, full, snapLsn, at0) && HistoryOk(s) && SpansOk(s) && |s.locs| < |s.spans| && Placed(s, t, out)
    ensures TidyInv(t, full, snapLsn, at0)
  {
    hide RecsOf, WellFormed, Exec, Flat, ReplayAll, Sorted, NewLast, Listed, BaseSafe, Bases, IsMax, Submap,
         PlacesNamed, SpanRecs, SpansOk, HistoryOk;
    var k := |s.locs|;
    ShelfIno(s.ker.files, full, s.eng.seg);
    assert SpansFit(t) by { SpansFitPlaced(s, t, out); }
    LogGrows(s, t, out);
    ListedGrown(s.ker.files, full, s.eng.seg, SpanRecs(s, k), out);
    GrownKeepsBase(Active(s), SpanRecs(s, k), out);
    assert PlacesNamed(t.locs, full) by { PlacesGrow(s.locs, t.locs, full, s.eng.seg); }
  }

  lemma SpansFitPlaced(s: State, t: State, out: bytes)
    requires SpansFit(s) && s.eng.seg.ino < |s.ker.files| && |s.locs| < |s.spans| && Placed(s, t, out)
    ensures SpansFit(t)
  {
  }

  lemma LogGrows(s: State, t: State, out: bytes)
    requires SpansFit(s) && HistoryOk(s) && SpansOk(s) && IngestedUpTo(s) <= |s.hist| && |s.locs| < |s.spans|
    requires s.eng.seg.ino < |s.ker.files| && Placed(s, t, out)
    ensures IngestedUpTo(t) <= |t.hist| && AllWellFormed(t.hist)
    ensures RecsOf(t.start, t.hist[..IngestedUpTo(t)])
         == RecsOf(s.start, s.hist[..IngestedUpTo(s)]) + SpanRecs(s, |s.locs|)
  {
    hide RecsOf, WellFormed, Exec, SpanOk;
    IngestRecs(s, |s.locs|);
  }

  lemma PlacesGrow(locs: seq<Loc>, locs': seq<Loc>, full: map<nat, nat>, seg: Segment)
    requires PlacesNamed(locs, full) && |locs'| == |locs| + 1 && locs'[..|locs|] == locs
    requires locs'[|locs|].ino == seg.ino && seg.start in full && full[seg.start] == seg.ino
    ensures PlacesNamed(locs', full)
  {
    forall j | 0 <= j < |locs'| ensures locs'[j].ino in full.Values {
      if j < |locs| { assert locs'[j] == locs'[..|locs|][j] == locs[j]; }
    }
  }

  lemma GrownKeepsBase(f: File, recs: seq<Rec>, out: bytes)
    requires BaseSafe(f)
    ensures BaseSafe(Grown(f, recs, out))
  {
    assert forall p: nat :: p < |f.want| ==> (SyncedAt(f, p) <==> SyncedAt(Grown(f, recs, out), p));
  }

  lemma BatchLo(s: State)
    requires BatchInv(s) && s.chan != [] && s.chan[0].WriteMsg?
    ensures |s.locs| < |s.spans| && s.chan[0].batch.lo == s.spans[|s.locs|].lo
  {
    hide RecsOf, Exec, WritesOk, WaitersOk;
    AssertionsHold(s);
  }

  /** Growing the active file appends to the listed records and leaves the old content alone. */
  lemma ListedGrown(files: seq<File>, dir: map<nat, nat>, seg: Segment, recs: seq<Rec>, out: bytes)
    requires Shelved(files, dir, seg) && NewLast(files, dir)
    ensures var files' := files[seg.ino := Grown(files[seg.ino], recs, out)];
            && Shelved(files', dir, seg) && NewLast(files', dir)
            && Bases(Listed(files', dir)) == Bases(Listed(files, dir))
            && Flat(Listed(files', dir)) == Flat(Listed(files, dir)) + recs
  {
    hide Sorted, Listed, Flat, Bases, NewLast, Shelved;
    ShelfGrown(files, dir, seg, recs, out);
    ListedSplit(files, dir, seg, recs, out);
    ShelfIno(files, dir, seg);
    var fs := Listed(files, dir);
    GrownLast(fs[..|fs| - 1], files[seg.ino], recs, out);
  }

  lemma ShelfIno(files: seq<File>, dir: map<nat, nat>, seg: Segment)
    requires Shelved(files, dir, seg)
    ensures seg.ino < |files| && DirOk(files, dir) && seg.start in dir && dir[seg.start] == seg.ino
  {
  }

  lemma ShelfGrown(files: seq<File>, dir: map<nat, nat>, seg: Segment, recs: seq<Rec>, out: bytes)
    requires Shelved(files, dir, seg) && NewLast(files, dir)
    ensures var files' := files[seg.ino := Grown(files[seg.ino], recs, out)];
            Shelved(files', dir, seg) && NewLast(files', dir)
  {
    var files' := files[seg.ino := Grown(files[seg.ino], recs, out)];
    forall m, n | m in dir && n in dir && m < n && files'[dir[m]].recs != [] ensures files'[dir[n]].base == [] {
      assert m != seg.start;
    }
  }

  lemma ListedSplit(files: seq<File>, dir: map<nat, nat>, seg: Segment, recs: seq<Rec>, out: bytes)
    requires Shelved(files, dir, seg)
    ensures var files' := files[seg.ino := Grown(files[seg.ino], recs, out)];
            var fs := Listed(files, dir);
            && DirOk(files', dir) && |fs| > 0
            && fs == fs[..|fs| - 1] + [files[seg.ino]]
            && Listed(files', dir) == fs[..|fs| - 1] + [files'[seg.ino]]
  {
    hide Sorted, Listed, Shelved;
    ShelfIno(files, dir, seg);
    var files' := files[seg.ino := Grown(files[seg.ino], recs, out)];
    assert Shelved(files', dir, seg) by { ShelfSame(files, files', dir, seg); }
    ActiveLast(files, dir, seg);
    ActiveLast(files', dir, seg);
    var fs, gs := Listed(files, dir), Listed(files', dir);
    forall i | 0 <= i < |fs| - 1 ensures fs[i] == gs[i] {
      OthersOld(files, dir, seg, i);
      ListedAt(files, dir, i);
      ListedAt(files', dir, i);
    }
    assert gs[..|fs| - 1] == fs[..|fs| - 1];
  }

  lemma ShelfSame(files: seq<File>, files': seq<File>, dir: map<nat, nat>, seg: Segment)
    requires Shelved(files, dir, seg) && |files'| == |files|
    ensures Shelved(files', dir, seg)
  {
  }

  lemma GrownLast(pre: seq<File>, f: File, recs: seq<Rec>, out: bytes)
    ensures var g := Grown(f, recs, out);
            && Bases(pre + [g]) == Bases(pre + [f])
            && Flat(pre + [g]) == Flat(pre + [f]) + recs
  {
    hide Flat;
    var g := Grown(f, recs, out);
    FlatAppend(pre, [f]);
    FlatAppend(pre, [g]);
    FlatOne(f);
    FlatOne(g);
    Assoc(Flat(pre), f.recs, recs);
    assert forall i :: 0 <= i < |pre| + 1 ==> (pre + [g])[i].base == (pre + [f])[i].base;
  }

  // ---- Rotation ----

  function Blank(): File { File([], [], [], [], []) }

  lemma ListedNew(files: seq<File>, dir: map<nat, nat>, b: nat)
    requires DirOk(files, dir) && forall n :: n in dir ==> n < b
    ensures var files', dir' := files + [Blank()], dir[b := |files|];
            && DirOk(files', dir')
            && Listed(files', dir') == Listed(files, dir) + [Blank()]
  {
    hide Sorted, Listed, IsMax;
    var files', dir' := files + [Blank()], dir[b := |files|];
    NamesNew(dir, b, |files|);
    var names := Sorted(dir.Keys);
    forall i | 0 <= i < |names| ensures Listed(files', dir')[i] == Listed(files, dir)[i] {
      ListedAt(files, dir, i);
      ListedAt(files', dir', i);
    }
    ListedAt(files', dir', |names|);
  }

  lemma NamesNew(dir: map<nat, nat>, b: nat, i: nat)
    requires forall n :: n in dir ==> n < b
    ensures Sorted(dir[b := i].Keys) == Sorted(dir.Keys) + [b] && IsMax(b, dir[b := i].Keys)
  {
    hide Sorted;
    var dir' := dir[b := i];
    assert dir'.Keys - {b} == dir.Keys;
    SortedMax(dir'.Keys, b);
  }

  lemma {:induction false} OneMoreEmpty(fs: seq<File>, snapLsn: nat, at: Progress)
    requires ReplayAll(Bases(fs), snapLsn, at).Clean?
    ensures var gs := fs + [Blank()];
            && Flat(gs) == Flat(fs)
            && ReplayAll(Bases(gs), snapLsn, at) == ReplayAll(Bases(fs), snapLsn, at)
  {
    hide ReplayAll, Flat;
    FlatAppend(fs, [Blank()]);
    FlatOne(Blank());
    assert Bases(fs + [Blank()]) == Bases(fs) + Bases([Blank()]);
    ReplayAllOnward(Bases(fs), Bases([Blank()]), snapLsn, at);
    EmptyBases([Blank()], snapLsn, ReplayAll(Bases(fs), snapLsn, at).at);
  }

  lemma SealKeepsBase(f: File)
    requires FileOk(f)
    ensures KeepsFile(f, SyncedNow(f))
  {
    if BaseSafe(f) {
      forall p: nat | p < |f.base| ensures SyncedAt(SyncedNow(f), p) {
        assert SyncedAt(f, p);
      }
    }
  }

  /** The active file is fsynced. */
  lemma TidySealed(s: State, t: State, full: map<nat, nat>, snapLsn: nat, at0: Progress)
    requires TidyInv(s, full, snapLsn, at0) && IoInv(s) && Extends(s, t) && SpansFit(t) && t.locs == s.locs
    requires t.eng.seg == s.eng.seg && t.ker.dir == s.ker.dir
    requires s.eng.seg.ino < |s.ker.files| && t.ker.files == s.ker.files[s.eng.seg.ino := SyncedNow(Active(s))]
    ensures TidyInv(t, full, snapLsn, at0)
  {
    hide LineInv, PlanOk, LineOf, TidyInv, WellFormed, ResultsOk, KeepsFile, SpansFit, Extends;
    TidyBasics(s, full, snapLsn, at0);
    LineFile(Line(s), |s.ker.cq|, Active(s));
    SealKeepsBase(Active(s));
    forall i | 0 <= i < |s.ker.files| ensures KeepsFile(s.ker.files[i], t.ker.files[i]) {
      if i != s.eng.seg.ino { KeepsSelf(s.ker.files[i]); }
    }
    TidyFrame(s, t, full, snapLsn, at0);
  }

  lemma KeepsSelf(f: File)
    ensures KeepsFile(f, f)
  {
  }

  lemma TidyRotate(s: State, full: map<nat, nat>, snapLsn: nat, at0: Progress)
    requires TidyInv(s, full, snapLsn, at0) && IoInv(s) && RouteInv(s) && BatchInv(s)
    requires CanFinishRotate(s) && s.eng.rotating.value >= s.eng.seg.start
    ensures TidyInv(Rotate(s), full + Rotate(s).ker.dir, snapLsn, at0)
  {
    hide BatchInv, IoInv, TidyInv, LineOf, SentAll, RaiseAll, WellFormed, Freed, RemovesBelow, PlacesNamed, BaseSafe;
    BatchBasics(s);
    TidyBasics(s, full, snapLsn, at0);
    var b := s.eng.rotating.value;
    var m := s.(ker := s.ker.(files := s.ker.files[s.eng.seg.ino := SyncedNow(Active(s))]));
    assert TidyInv(m, full, snapLsn, at0) by { TidySealed(s, m, full, snapLsn, at0); }
    var t := Rotate(s);
    if b in s.ker.dir {
      assert b == s.eng.seg.start;
      assert full + t.ker.dir == full;
      TidyReopened(m, t, full, snapLsn, at0);
    } else {
      assert full + t.ker.dir == full[b := |s.ker.files|];
      TidyOpened(m, t, full, b, snapLsn, at0);
    }
  }

  lemma TidyReopened(s: State, t: State, full: map<nat, nat>, snapLsn: nat, at0: Progress)
    requires TidyInv(s, full, snapLsn, at0) && Extends(s, t) && SpansFit(t) && t.locs == s.locs && t.ker == s.ker
    requires t.eng.seg.start == s.eng.seg.start && t.eng.seg.ino == s.eng.seg.ino
    ensures TidyInv(t, full, snapLsn, at0)
  {
    hide TidyInv, KeepsFile, SpansFit, Extends;
    TidyBasics(s, full, snapLsn, at0);
    forall i | 0 <= i < |s.ker.files| ensures KeepsFile(s.ker.files[i], t.ker.files[i]) {
      KeepsSelf(s.ker.files[i]);
    }
    TidyFrame(s, t, full, snapLsn, at0);
  }

  lemma TidyOpened(s: State, t: State, full: map<nat, nat>, b: nat, snapLsn: nat, at0: Progress)
    requires TidyInv(s, full, snapLsn, at0) && b > s.eng.seg.start
    requires t.ker.files == s.ker.files + [Blank()] && t.ker.dir == s.ker.dir[b := |s.ker.files|]
    requires t.eng.seg == Segment(b, |s.ker.files|, 0) && t.hist == s.hist && t.spans == s.spans && t.locs == s.locs
    requires t.start == s.start && t.db0 == s.db0
    ensures TidyInv(t, full[b := |s.ker.files|], snapLsn, at0)
  {
    hide RecsOf, AllWellFormed, Flat, ReplayAll, Listed, NewLast, Shelved, SpansFit, Bases, Submap, PlacesNamed, DirOk;
    assert SpansFit(t) by { SpansFitSame(s, t); }
    ShelfOpened(s.ker.files, full, s.eng.seg, b);
    ShelfIno(s.ker.files, full, s.eng.seg);
    ListedNew(s.ker.files, full, b);
    OneMoreEmpty(Listed(s.ker.files, full), snapLsn, at0);
    NamesKept(s.ker.dir, full, s.locs, b, |s.ker.files|);
    assert BaseSafe(Blank());
  }

  lemma SpansFitSame(s: State, t: State)
    requires SpansFit(s) && t.hist == s.hist && t.spans == s.spans && t.locs == s.locs
    ensures SpansFit(t) && AllWellFormed(t.hist)
  {
  }

  lemma ShelfOpened(files: seq<File>, full: map<nat, nat>, seg: Segment, b: nat)
    requires Shelved(files, full, seg) && NewLast(files, full) && b > seg.start
    ensures forall n :: n in full ==> n < b
    ensures var files', full' := files + [Blank()], full[b := |files|];
            Shelved(files', full', Segment(b, |files|, 0)) && NewLast(files', full')
  {
    var files', full' := files + [Blank()], full[b := |files|];
    forall n | n in full ensures n < b && files'[full'[n]] == files[full[n]] {
      assert n in full.Keys;
    }
  }

  lemma NamesKept(dir: map<nat, nat>, full: map<nat, nat>, locs: seq<Loc>, b: nat, i: nat)
    requires Submap(dir, full) && PlacesNamed(locs, full) && b !in full
    ensures Submap(dir[b := i], full[b := i]) && PlacesNamed(locs, full[b := i])
  {
    forall k | 0 <= k < |locs| ensures locs[k].ino in full[b := i].Values {
      assert locs[k].ino in full.Values;
      var n :| n in full && full[n] == locs[k].ino;
      assert full[b := i][n] == full[n];
    }
  }

  // ---- Start-up and steps ----

  /** Start-up after `recover` read every segment to its end, on top of the snapshot state `at0`. */
  ghost predicate CleanStart(s: State, snapLsn: nat, at0: Progress) {
    && s.start > 0 && DirOk(s.ker.files, s.ker.dir) && IsMax(s.start, s.ker.dir.Keys)
    && ReplayAll(Bases(Listed(s.ker.files, s.ker.dir)), snapLsn, at0) == Clean(Progress(s.db0, s.start - 1))
  }

  lemma TidyInit(s: State, snapLsn: nat, at0: Progress)
    requires Init(s) && CleanStart(s, snapLsn, at0)
    ensures TidyInv(s, s.ker.dir, snapLsn, at0)
  {
    hide Sorted, ReplayAll, LineOf, Listed, Flat, RecsOf, WellFormed, Bases;
    assert forall i :: 0 <= i < |s.ker.files| ==> Settled(s.ker.files[i]);
    var fs := Listed(s.ker.files, s.ker.dir);
    forall i | 0 <= i < |fs| ensures fs[i].recs == [] { ListedAt(s.ker.files, s.ker.dir, i); }
    AllEmpty(fs);
    NoRequests(s.start);
    assert s.hist[..0] == [];
  }

  lemma {:induction false} AllEmpty(fs: seq<File>)
    requires forall i :: 0 <= i < |fs| ==> fs[i].recs == []
    ensures Flat(fs) == []
  {
    if fs != [] { AllEmpty(fs[1..]); }
  }

  /** Steps that open no segment leave the names as they are. */
  lemma TidyStep(s: State, step: Step, full: map<nat, nat>, snapLsn: nat, at0: Progress)
    requires TidyInv(s, full, snapLsn, at0) && IoInv(s) && RouteInv(s) && BatchInv(s) && Enabled(s, step)
    requires Forward(s, step)
    ensures TidyInv(Next(s, step), full + Next(s, step).ker.dir, snapLsn, at0)
  {
    hide IoInv, BatchInv, TidyInv, RouteInv, LineOf, ReceiveWrite, ReapHead, Rotate, TakeBatch, Sorted, Landing,
         DoFsync, WellFormed, Shelved, BaseSafe, PlacesNamed, KeepsFile, DirOk;
    TidyBasics(s, full, snapLsn, at0);
    var t := Next(s, step);
    if step.FinishRotate? {
      TidyRotate(s, full, snapLsn, at0);
    } else {
      TidyStay(s, step, full, snapLsn, at0);
      assert full + t.ker.dir == full by { TidyBasics(t, full, snapLsn, at0); }
    }
  }

  lemma TidyStay(s: State, step: Step, full: map<nat, nat>, snapLsn: nat, at0: Progress)
    requires TidyInv(s, full, snapLsn, at0) && IoInv(s) && RouteInv(s) && BatchInv(s) && Enabled(s, step)
    requires !step.FinishRotate?
    ensures TidyInv(Next(s, step), full, snapLsn, at0)
  {
    hide IoInv, BatchInv, TidyInv, RouteInv, LineOf, ReceiveWrite, ReapHead, TakeBatch, Sorted, DoWrite, DoFsync,
         WellFormed, Shelved, BaseSafe, PlacesNamed, KeepsFile, DirOk;
    BatchBasics(s);
    TidyBasics(s, full, snapLsn, at0);
    var t := Next(s, step);
    match step
    case Take(reqs) => TidyTake(s, reqs, full, snapLsn, at0);
    case Receive =>
      if s.chan[0].WriteMsg? { TidyReceive(s, full, snapLsn, at0); } else { TidySameFiles(s, t, full, snapLsn, at0); }
    case KernelWrite(i, res) => TidyWrite(s, i, res, full, snapLsn, at0);
    case KernelFsync => TidyFsync(s, full, snapLsn, at0);
    case ReapCqe => ReapMode(s); ReapKeeps(s); TidySameFiles(s, t, full, snapLsn, at0);
    case _ => TidySameFiles(s, t, full, snapLsn, at0);
  }

  lemma TidySameFiles(s: State, t: State, full: map<nat, nat>, snapLsn: nat, at0: Progress)
    requires TidyInv(s, full, snapLsn, at0) && Extends(s, t) && SpansFit(t) && t.locs == s.locs
    requires t.ker.files == s.ker.files && t.eng.seg == s.eng.seg && Submap(t.ker.dir, full)
    ensures TidyInv(t, full, snapLsn, at0)
  {
    hide TidyInv, KeepsFile, SpansFit, Extends;
    forall i | 0 <= i < |s.ker.files| ensures KeepsFile(s.ker.files[i], t.ker.files[i]) {
      KeepsSelf(s.ker.files[i]);
    }
    TidyFrame(s, t, full, snapLsn, at0);
  }

  lemma TidyWrite(s: State, i: nat, res: int, full: map<nat, nat>, snapLsn: nat, at0: Progress)
    requires TidyInv(s, full, snapLsn, at0) && BatchInv(s) && CanWrite(s.ker, i, res)
    ensures TidyInv(s.(ker := DoWrite(s.ker, i, res)), full, snapLsn, at0)
  {
    hide TidyInv, BatchInv, KeepsFile, Landing, Without, MayStart, WellFormed;
    BatchBasics(s);
    TidyBasics(s, full, snapLsn, at0);
    var t := s.(ker := DoWrite(s.ker, i, res));
    forall j | 0 <= j < |s.ker.files| ensures KeepsFile(s.ker.files[j], t.ker.files[j]) {
      if j == s.ker.ops[i].fd {
        LandingContent(s.ker.files[j], s.ker.ops[i].work, Wrote(res));
      } else {
        KeepsSelf(s.ker.files[j]);
      }
    }
    TidyFrame(s, t, full, snapLsn, at0);
  }

  lemma LandingContent(f: File, w: Work, n: nat)
    requires w.Write? && w.done + n <= |w.batch.out|
    ensures KeepsFile(f, Landing(f, w, n))
  {
    hide WriteAt;
    var f' := Landing(f, w, n);
    assert forall p: nat :: p < |f.want| ==> (SyncedAt(f, p) <==> SyncedAt(f', p));
  }

  lemma ReapKeeps(s: State)
    requires CanReap(s)
    ensures var t := ReapHead(s);
            t.hist == s.hist && t.conns == s.conns && t.spans == s.spans && t.locs == s.locs && t.start == s.start
            && t.db0 == s.db0 && |t.reach| == |s.reach|
  {
    hide Raise, RaiseAll, Reap;
  }

  lemma TidyFsync(s: State, full: map<nat, nat>, snapLsn: nat, at0: Progress)
    requires TidyInv(s, full, snapLsn, at0) && IoInv(s) && RouteInv(s) && BatchInv(s) && CanFsync(s.ker)
    ensures TidyInv(s.(ker := DoFsync(s.ker)), full, snapLsn, at0)
  {
    hide BatchInv, TidyInv, IoInv, LineOf, RemovesBelow, SegmentOpen, WellFormed;
    BatchBasics(s);
    TidyBasics(s, full, snapLsn, at0);
    TidySealed(s, s.(ker := DoFsync(s.ker)), full, snapLsn, at0);
  }

  lemma TidyTake(s: State, reqs: seq<Req>, full: map<nat, nat>, snapLsn: nat, at0: Progress)
    requires TidyInv(s, full, snapLsn, at0) && BatchInv(s) && CanTake(s, reqs)
    ensures TidyInv(TakeBatch(s, reqs), full, snapLsn, at0)
  {
    hide ChanOk, WritesOk, WaitersOk, ApplyRequests, Sent, Exec, RecsOf, Remaining, LineOf, TidyInv, TakenBatch;
    var t := TakeBatch(s, reqs);
    BatchBasics(s);
    TidyBasics(s, full, snapLsn, at0);
    TakeHistory(s, reqs);
    TakeSpans(s, reqs);
    assert SpansFit(t) by {
      forall k | 0 <= k < |t.spans| ensures t.spans[k].first + t.spans[k].n <= |t.hist| { SpanFits(t, t.spans[k]); }
    }
    TidySameFiles(s, t, full, snapLsn, at0);
  }
}
