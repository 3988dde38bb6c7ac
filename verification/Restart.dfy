/**
 Restarts. `main` recovers the directory and opens the segment named by the next LSN (crates/server/src/main.rs,
 crates/server/src/stage3/segment.rs). A run that ends quiet leaves what the next one needs, so the crash
 theorems hold over any number of clean restarts. A crash that leaves a tear does not: `recover` stops there
 and leaves it in place, and what later runs write is never read.
 */
module Restart {
  import opened Bytes
  import opened Types
  import opened Wire
  import opened WalFormat
  import opened Recovery
  import opened SnapshotReplay
  import opened SnapshotRecovery
  import opened Stage2
  import opened Acker
  import opened IoLine
  import opened WalCore
  import opened Pipeline
  import opened Names
  import opened Routing
  import opened Batches
  import opened Storage
  import opened Durability
  import opened Replies
  import opened Outstanding
  import opened Content
  import opened CalmSteps
  import opened CrashReplay
  import opened LogOrder
  import opened CrashFiles
  import opened EndToEnd
  import opened Runs
  import opened CrashRecovery
  import opened Theorems
  import opened Retirement
  import opened Compaction

  /** The file `n` held these bytes at start-up. */
  ghost predicate Held(t: State, n: nat, b: bytes) {
    n in t.ker.dir && t.ker.dir[n] < |t.ker.files| && t.ker.files[t.ker.dir[n]].base == b
  }

  /** Start-up over segments `names` with contents `segs`: the segment `t.start` is opened, created if missing. */
  ghost predicate Reopens(t: State, names: set<nat>, segs: seq<bytes>) {
    && Init(t) && t.ker.dir.Keys == names + {t.start} && |segs| == |Sorted(names)|
    && (forall i :: 0 <= i < |segs| ==> Held(t, Sorted(names)[i], segs[i]))
    && (t.start !in names ==> Held(t, t.start, []))
  }

  /** What start-up lists: the segments found, and the new one behind them if there is a new one. */
  lemma ReopenedListing(t: State, names: set<nat>, segs: seq<bytes>)
    requires Reopens(t, names, segs) && forall n :: n in names ==> n <= t.start
    ensures DirOk(t.ker.files, t.ker.dir) && IsMax(t.start, t.ker.dir.Keys)
    ensures Bases(Listed(t.ker.files, t.ker.dir)) == segs + if t.start in names then [] else [[]]
  {
    hide Sorted, Listed, Reopens, Bases;
    ReopensInit(t, names, segs);
    assert DirOk(t.ker.files, t.ker.dir) && IsMax(t.start, t.ker.dir.Keys) by { ReopenedDir(t, names, segs); }
    var b := Bases(Listed(t.ker.files, t.ker.dir));
    var want := segs + if t.start in names then [] else [[]];
    ReopenedNames(t, names, segs);
    forall i | 0 <= i < |want| ensures i < |b| && b[i] == want[i] {
      ReopenedAt(t, names, segs, i);
      ListedAt(t.ker.files, t.ker.dir, i);
    }
  }

  lemma ReopenedDir(t: State, names: set<nat>, segs: seq<bytes>)
    requires Reopens(t, names, segs) && forall n :: n in names ==> n <= t.start
    ensures DirOk(t.ker.files, t.ker.dir) && IsMax(t.start, t.ker.dir.Keys)
  {
    hide Sorted;
  }

  lemma ReopenedAt(t: State, names: set<nat>, segs: seq<bytes>, i: nat)
    requires Reopens(t, names, segs)
    requires var all := segs + if t.start in names then [] else [[]]; i < |all|
    ensures |segs| == |Sorted(names)|
    ensures var all := segs + if t.start in names then [] else [[]];
            Held(t, (Sorted(names) + if t.start in names then [] else [t.start])[i], all[i])
  {
    hide Sorted, Init;
    if i < |segs| { assert Held(t, Sorted(names)[i], segs[i]); }
  }

  lemma ReopenedNames(t: State, names: set<nat>, segs: seq<bytes>)
    requires Reopens(t, names, segs) && forall n :: n in names ==> n <= t.start
    ensures Sorted(t.ker.dir.Keys) == Sorted(names) + if t.start in names then [] else [t.start]
    ensures |segs| == |Sorted(names)|
  {
    hide Sorted, Init;
    if t.start in names {
      assert names + {t.start} == names;
    } else {
      assert IsMax(t.start, names + {t.start});
      SortedMax(names + {t.start}, t.start);
      assert names + {t.start} - {t.start} == names;
    }
  }

  lemma {:induction false} EmptyBehind(segs: seq<bytes>, snapLsn: nat, at: Progress)
    ensures ReplayAll(segs + [[]], snapLsn, at) == ReplayAll(segs, snapLsn, at)
  {
    hide Replay;
    if segs == [] {
      assert (segs + [[]])[0] == [] && (segs + [[]])[1..] == [];
      ReplayEmpty(snapLsn, at);
    } else {
      assert (segs + [[]])[0] == segs[0] && (segs + [[]])[1..] == segs[1..] + [[]];
      var o := Replay(segs[0], snapLsn, at);
      if o.Clean? { EmptyBehind(segs[1..], snapLsn, o.at); }
    }
  }

  /** A directory that was read to its end, and whose names do not go past the next LSN, is a clean start. */
  lemma CleanRestart(t: State, names: set<nat>, segs: seq<bytes>, snapLsn: nat, at0: Progress)
    requires Reopens(t, names, segs) && forall n :: n in names ==> n <= t.start
    requires t.start > 0 && ReplayAll(segs, snapLsn, at0) == Clean(Progress(t.db0, t.start - 1))
    ensures CleanStart(t, snapLsn, at0)
  {
    hide Reopens, ReplayAll, Listed, Bases, Sorted;
    ReopenedListing(t, names, segs);
    EmptyBehind(segs, snapLsn, at0);
    assert segs + [] == segs;
  }

  // ---- Clean restarts ----

  ghost predicate Quiet(s: State) { NoWrites(s) && WritesIn(s.chan) == [] && s.lsn < U64 }

  /** `t` is the start-up after `s` ended: over its segments as they are, with what `recover` returns. */
  ghost predicate Restarts(s: State, t: State, snap: Option<bytes>, segs: seq<bytes>) {
    && SegmentData(s, segs) && Reopens(t, s.ker.dir.Keys, segs)
    && RecoverFrom(snap, segs) == Recovered(t.db0, t.start)
  }

  lemma NamesUpTo(files: seq<File>, dir: map<nat, nat>, seg: Segment, m: nat)
    requires Shelved(files, dir, seg) && seg.start <= m
    ensures forall n :: n in dir.Keys ==> n <= m
  {
  }

  /**
   A run that ends quiet, without unlinks, leaves a clean start for the next run: it goes on from the map
   stage 2 held. The active segment's name is at most the next LSN.
   */
  lemma QuietRestarts(states: seq<State>, steps: seq<Step>, t: State, snap: Option<bytes>, snapLsn: nat, snapDb: Kv,
                      segs: seq<bytes>)
    requires OrderlyRun(states, steps)
    requires Base(snap) == Some((snapLsn, snapDb)) && CleanStart(states[0], snapLsn, Progress(snapDb, snapLsn))
    requires Quiet(states[|steps|]) && Restarts(states[|steps|], t, snap, segs)
    requires states[|steps|].eng.seg.start <= t.start
    ensures Init(t) && CleanStart(t, snapLsn, Progress(snapDb, snapLsn))
    ensures t.db0 == states[|steps|].db && states[|steps|].lsn <= t.start
  {
    hide Init, Enabled, Next, CleanStart, Base, ReplayAll, NoWrites, WritesIn, SegmentData, Orderly, TidyInv, Shelved;
    var s := states[|steps|];
    QuietReplays(states, steps, snapLsn, snapDb, segs);
    OrderlyTidy(states, steps, snapLsn, Progress(snapDb, snapLsn));
    assert Shelved(s.ker.files, s.ker.dir, s.eng.seg) by {
      TidyBasics(s, s.ker.dir, snapLsn, Progress(snapDb, snapLsn));
    }
    NamesUpTo(s.ker.files, s.ker.dir, s.eng.seg, t.start);
    CleanRestart(t, s.ker.dir.Keys, segs, snapLsn, Progress(snapDb, snapLsn));
  }

  /** The same with compaction as stage 2 carries it out; there the names need no condition. */
  lemma CompactionRestarts(states: seq<State>, steps: seq<Step>, p: nat, t: State, snapLsn: nat, snapDb: Kv,
                           snap: Option<bytes>, segs: seq<bytes>)
    requires CompactingRun(states, steps) && CleanStart(states[0], snapLsn, Progress(snapDb, snapLsn))
    requires p <= |steps| && forall j :: p < j < |steps| ==> !PostsRotate(steps[j])
    requires states[p].lsn > 0 && Base(snap) == Some((states[p].lsn - 1, states[p].db))
    requires Quiet(states[|steps|]) && Restarts(states[|steps|], t, snap, segs)
    ensures Init(t) && CleanStart(t, states[p].lsn - 1, Progress(states[p].db, states[p].lsn - 1))
    ensures t.db0 == states[|steps|].db && states[|steps|].lsn <= t.start
  {
    hide Init, Enabled, Next, CleanStart, Base, ReplayAll, NoWrites, WritesIn, SegmentData, TidyInv, Shelved, Inv, Exec,
         RecsOf, Compacted, Seen, AsSent, PostsRotate, WellFormed, Reopens, PastPosted;
    var s, n, mark := states[|steps|], |steps|, states[p].lsn - 1;
    CompactingForward(states, steps);
    CompactedAlways(states, steps, p, snapLsn, Progress(snapDb, snapLsn));
    TidyAlways(states, steps, n, snapLsn, Progress(snapDb, snapLsn));
    InvAlways(states, steps, n);
    var at := QuietCompacted(s, Seen(states, n), |states[p].hist|, snapLsn, snapDb, mark, segs);
    AscendAlways(states, steps, n);
    NamesBelow(s, Seen(states, n), snapLsn, Progress(snapDb, snapLsn), t.start);
    ReopensInit(t, s.ker.dir.Keys, segs);
    CleanRestart(t, s.ker.dir.Keys, segs, mark, Progress(states[p].db, mark));
  }

  lemma ReopensInit(t: State, names: set<nat>, segs: seq<bytes>)
    requires Reopens(t, names, segs)
    ensures Init(t)
  {
    hide Init, Sorted;
  }

  lemma NamesBelow(s: State, full: map<nat, nat>, snapLsn: nat, at0: Progress, m: nat)
    requires AscendInv(s) && Inv(s) && TidyInv(s, full, snapLsn, at0) && s.lsn <= m
    ensures forall n :: n in s.ker.dir.Keys ==> n <= m
  {
    hide TidyInv, RouteInv, BatchInv, IoInv, DurableInv, ReplyInv, OutInv, Buffers.BufferInv, ContentInv, Shelved, Sane,
         Onto;
    OntoAhead(Bound(s.eng), s.chan);
    ShelvedNow(s, full, snapLsn, at0);
    NamesUpTo(s.ker.files, s.ker.dir, s.eng.seg, m);
  }

  // ---- Any number of clean restarts ----

  datatype Life = Life(states: seq<State>, steps: seq<Step>)

  ghost predicate Lived(a: Life) { OrderlyRun(a.states, a.steps) }

  function Last(a: Life): State
    requires |a.states| == |a.steps| + 1
  {
    a.states[|a.steps|]
  }

  /** Run `b` was started over what `a` left once it was quiet. */
  ghost predicate Follows(a: Life, b: Life, snap: Option<bytes>) {
    && Lived(a) && Lived(b) && Quiet(Last(a)) && Last(a).eng.seg.start <= b.states[0].start
    && exists segs :: Restarts(Last(a), b.states[0], snap, segs)
  }

  ghost predicate Lineage(lives: seq<Life>, snap: Option<bytes>) {
    lives != [] && Lived(lives[0]) && (|lives| > 1 ==> Follows(lives[0], lives[1], snap) && Lineage(lives[1..], snap))
  }

  /** The last state of the last run. */
  function Final(lives: seq<Life>): State
    requires lives != [] && |lives[|lives| - 1].states| == |lives[|lives| - 1].steps| + 1
  {
    Last(lives[|lives| - 1])
  }

  lemma {:induction false} FinalLived(lives: seq<Life>, snap: Option<bytes>)
    requires Lineage(lives, snap)
    ensures Lived(lives[0]) && Lived(lives[|lives| - 1])
  {
    hide Lived, Follows;
    if |lives| > 1 { FinalLived(lives[1..], snap); }
  }

  /** The requests of all runs but the last. */
  ghost function Earlier(lives: seq<Life>, snap: Option<bytes>): seq<bytes>
    requires Lineage(lives, snap)
  {
    if |lives| == 1 then [] else Last(lives[0]).hist + Earlier(lives[1..], snap)
  }

  lemma LastMap(a: Life)
    requires Lived(a)
    ensures |a.states| == |a.steps| + 1
    ensures AllWellFormed(Last(a).hist) && Last(a).db0 == a.states[0].db0
    ensures Last(a).db == Exec(a.states[0].db0, Last(a).hist)
  {
    hide Init, Enabled, Next, RouteInv, BatchInv, IoInv, DurableInv, ReplyInv, OutInv, Buffers.BufferInv, ContentInv,
         Orderly, RecsOf, Exec, WellFormed, SpansOk, WatermarkOk;
    InvAlways(a.states, a.steps, |a.steps|);
    HistoryFromBatch(Last(a));
    RunGrows(a.states, a.steps, 0, |a.steps|);
  }

  /** Recovery returned the map after all requests of the earlier runs and the first `m` of the last. */
  ghost predicate LineageReturned(lives: seq<Life>, snap: Option<bytes>, r: Recovered, m: nat, next: nat)
    requires Lineage(lives, snap)
  {
    && Lived(lives[0]) && Lived(lives[|lives| - 1])
    && PrefixReturned(Final(lives), r, m, next)
    && var all := Earlier(lives, snap) + Final(lives).hist[..m];
    && AllWellFormed(all) && r == Recovered(Exec(lives[0].states[0].db0, all), next)
  }

  lemma OneLife(lives: seq<Life>, snap: Option<bytes>, snapLsn: nat, snapDb: Kv, imgs: seq<bytes>)
      returns (m: nat, next: nat)
    requires Lineage(lives, snap) && |lives| == 1 && Base(snap) == Some((snapLsn, snapDb))
    requires CleanStart(lives[0].states[0], snapLsn, Progress(snapDb, snapLsn))
    requires var s := Last(lives[0]); s.lsn < U64 && AllSurvive(s, imgs) && Legible(s, imgs)
    ensures LineageReturned(lives, snap, RecoverFrom(snap, imgs), m, next)
  {
    hide Init, Enabled, Next, CleanStart, Base, Orderly, Exec, WellFormed, AllSurvive, Legible, RecsOf, RecoverFrom,
         Safe, PutsWithin;
    var a := lives[0];
    m, next := LegibleRecovers(a.states, a.steps, snap, snapLsn, snapDb, imgs);
    LastMap(a);
    assert [] + Last(a).hist[..m] == Last(a).hist[..m];
  }

  /** One more run in front. */
  lemma LifeBefore(lives: seq<Life>, snap: Option<bytes>, r: Recovered, m: nat, next: nat)
    requires Lineage(lives, snap) && |lives| > 1 && LineageReturned(lives[1..], snap, r, m, next)
    requires lives[1].states[0].db0 == Last(lives[0]).db
    ensures LineageReturned(lives, snap, r, m, next)
  {
    hide Init, Enabled, Next, Exec, WellFormed, RecsOf, Safe, PutsWithin, Orderly, Quiet, Restarts;
    var rest := lives[1..];
    LastMap(lives[0]);
    assert rest[|rest| - 1] == lives[|lives| - 1] && rest[0] == lives[1];
    var own := Earlier(rest, snap) + Final(rest).hist[..m];
    ExecAppend(lives[0].states[0].db0, Last(lives[0]).hist, own);
    assert Last(lives[0]).hist + own == Earlier(lives, snap) + Final(lives).hist[..m];
  }

  /**
   Crash recovery over clean restarts: the last of any number of runs crashes, and recovery returns the map
   after all requests of the earlier runs and a prefix of its own.
   */
  lemma {:induction false} LineageRecovers(lives: seq<Life>, snap: Option<bytes>, snapLsn: nat, snapDb: Kv,
                                           imgs: seq<bytes>)
      returns (m: nat, next: nat)
    requires Lineage(lives, snap) && Lived(lives[0]) && Lived(lives[|lives| - 1])
    requires Base(snap) == Some((snapLsn, snapDb))
    requires CleanStart(lives[0].states[0], snapLsn, Progress(snapDb, snapLsn))
    requires var s := Final(lives); s.lsn < U64 && AllSurvive(s, imgs) && Legible(s, imgs)
    ensures LineageReturned(lives, snap, RecoverFrom(snap, imgs), m, next)
    decreases |lives|
  {
    hide Init, Enabled, Next, CleanStart, Base, Quiet, Restarts, Orderly, Exec, WellFormed, AllSurvive, Legible,
         RecoverFrom, LineageReturned;
    if |lives| == 1 {
      m, next := OneLife(lives, snap, snapLsn, snapDb, imgs);
    } else {
      var a, b := lives[0], lives[1];
      var segs :| Restarts(Last(a), b.states[0], snap, segs);
      QuietRestarts(a.states, a.steps, b.states[0], snap, snapLsn, snapDb, segs);
      FinalLived(lives[1..], snap);
      m, next := LineageRecovers(lives[1..], snap, snapLsn, snapDb, imgs);
      LifeBefore(lives, snap, RecoverFrom(snap, imgs), m, next);
    }
  }

  // ---- Restarts over a tear ----

  /**
   Start-up after `recover` stopped at a tear in a segment other than the one opened now: what lies before
   the tear made the map, and the tear is still there.
   */
  ghost predicate TornStart(s: State, snapLsn: nat, at0: Progress) {
    && s.start > 0 && DirOk(s.ker.files, s.ker.dir) && IsMax(s.start, s.ker.dir.Keys)
    && ReplayAll(Older(s), snapLsn, at0) == Tail(Progress(s.db0, s.start - 1))
  }

  /** What the segments listed before the one opened at start-up held. */
  function Older(s: State): seq<bytes>
    requires DirOk(s.ker.files, s.ker.dir)
  {
    var b := Bases(Listed(s.ker.files, s.ker.dir));
    if b == [] then [] else b[..|b| - 1]
  }

  /** A restart over a tear is such a start, if the segment opened is a new one. */
  lemma TornRestart(t: State, names: set<nat>, segs: seq<bytes>, snapLsn: nat, at0: Progress)
    requires Reopens(t, names, segs) && forall n :: n in names ==> n < t.start
    requires t.start > 0 && ReplayAll(segs, snapLsn, at0) == Tail(Progress(t.db0, t.start - 1))
    ensures TornStart(t, snapLsn, at0)
  {
    hide Reopens, ReplayAll, Listed, Bases, Sorted;
    ReopenedListing(t, names, segs);
    assert (segs + [[]])[..|segs|] == segs;
  }

  /** A segment that was there at start-up, other than the one opened then, is as it was. */
  ghost predicate OldKept(s: State, t: State) {
    && s.start <= t.eng.seg.start
    && (forall n :: n in s.ker.dir && n != s.start ==> SameSegment(s, t, n))
    && (forall n :: n in t.ker.dir && n < s.start ==> n in s.ker.dir)
  }

  ghost predicate SameSegment(s: State, t: State, n: nat)
    requires n in s.ker.dir
  {
    && n in t.ker.dir && t.ker.dir[n] == s.ker.dir[n] < |s.ker.files| <= |t.ker.files|
    && t.ker.files[t.ker.dir[n]] == s.ker.files[s.ker.dir[n]] && t.ker.dir[n] != t.eng.seg.ino
  }

  /** An orderly step changes the active segment only, and opens names at or above its own only. */
  ghost predicate OthersKept(s: State, t: State) {
    && s.eng.seg.start <= t.eng.seg.start && |s.ker.files| <= |t.ker.files|
    && (forall i :: 0 <= i < |s.ker.files| && i != s.eng.seg.ino ==> t.ker.files[i] == s.ker.files[i])
    && (forall n :: n in s.ker.dir ==> n in t.ker.dir && t.ker.dir[n] == s.ker.dir[n])
    && (forall n :: n in t.ker.dir && n !in s.ker.dir ==> s.eng.seg.start <= n)
    && (t.eng.seg.ino == s.eng.seg.ino || t.eng.seg.ino >= |s.ker.files|)
  }

  lemma StepKeepsOthers(s: State, step: Step)
    requires RouteInv(s) && Enabled(s, step) && Orderly(s, step) && IsMax(s.eng.seg.start, s.ker.dir.Keys)
    ensures OthersKept(s, Next(s, step)) && IsMax(Next(s, step).eng.seg.start, Next(s, step).ker.dir.Keys)
  {
    hide Rotate, TakeBatch, CanTake, ReceiveMsg, CanReceive, ReapHead, CanReap, DoWrite, DoFsync, DoRemove, CanWrite,
         CanFsync, CanRemove, Arm, CanSubmit, CanFinishRotate, RouteInv, OthersKept, IsMax;
    match step
    case FinishRotate => RotateKeepsOthers(s);
    case Take(reqs) => TakeKeepsFiles(s, reqs); KernelKeepsOthers(s, Next(s, step));
    case Receive => ReceiveKeepsOthers(s);
    case ReapCqe => ReapShape(s); KernelKeepsOthers(s, Next(s, step));
    case KernelWrite(i, res) => WriteKeepsOthers(s, i, res);
    case KernelFsync => FsyncKeepsOthers(s);
    case KernelRemove(i, gone) => RemoveKeepsDir(s, i); KernelKeepsOthers(s, Next(s, step));
    case _ => ArmKeepsSegment(s); KernelKeepsOthers(s, Next(s, step));
  }

  /** Files and names stay as they are. */
  lemma KernelKeepsOthers(s: State, t: State)
    requires t.ker.files == s.ker.files && t.ker.dir == s.ker.dir && t.eng.seg == s.eng.seg
    requires IsMax(s.eng.seg.start, s.ker.dir.Keys)
    ensures OthersKept(s, t) && IsMax(t.eng.seg.start, t.ker.dir.Keys)
  {
  }

  lemma TakeKeepsFiles(s: State, reqs: seq<Req>)
    requires CanTake(s, reqs)
    ensures TakeBatch(s, reqs).ker == s.ker && TakeBatch(s, reqs).eng == s.eng
  {
    hide TakenBatch, ApplyRequests, Exec, Sent;
  }

  lemma ArmKeepsSegment(s: State)
    ensures Arm(s.eng).seg == s.eng.seg
  {
  }

  lemma RemoveKeepsDir(s: State, i: nat)
    requires CanRemove(s.ker, i)
    ensures DoRemove(s.ker, i, false).files == s.ker.files && DoRemove(s.ker, i, false).dir == s.ker.dir
  {
  }

  lemma ReceiveKeepsOthers(s: State)
    requires CanReceive(s) && IsMax(s.eng.seg.start, s.ker.dir.Keys)
    ensures var t := ReceiveMsg(s); OthersKept(s, t) && IsMax(t.eng.seg.start, t.ker.dir.Keys)
  {
    hide Encoded, Grown, RecsOf, Sorted;
  }

  lemma WriteKeepsOthers(s: State, i: nat, res: int)
    requires RouteInv(s) && CanWrite(s.ker, i, res) && IsMax(s.eng.seg.start, s.ker.dir.Keys)
    ensures var t := s.(ker := DoWrite(s.ker, i, res)); OthersKept(s, t) && IsMax(t.eng.seg.start, t.ker.dir.Keys)
  {
    hide RemovesBelow, Landing, LineOf;
  }

  lemma FsyncKeepsOthers(s: State)
    requires RouteInv(s) && CanFsync(s.ker) && IsMax(s.eng.seg.start, s.ker.dir.Keys)
    ensures var t := s.(ker := DoFsync(s.ker)); OthersKept(s, t) && IsMax(t.eng.seg.start, t.ker.dir.Keys)
  {
    hide RemovesBelow, LineOf;
  }

  lemma RotateKeepsOthers(s: State)
    requires RouteInv(s) && CanFinishRotate(s) && s.eng.rotating.value >= s.eng.seg.start
    requires IsMax(s.eng.seg.start, s.ker.dir.Keys)
    ensures OthersKept(s, Rotate(s)) && IsMax(Rotate(s).eng.seg.start, Rotate(s).ker.dir.Keys)
  {
    hide RemovesBelow, SentAll, RaiseAll, Freed, LineOf;
    var b := s.eng.rotating.value;
    if b in s.ker.dir { assert b in s.ker.dir.Keys; }
  }

  lemma OldStays(r: State, s: State, t: State)
    requires OldKept(r, s) && OthersKept(s, t)
    ensures OldKept(r, t)
  {
    forall n | n in r.ker.dir && n != r.start ensures SameSegment(r, t, n) { assert SameSegment(r, s, n); }
  }

  lemma OldInit(s: State)
    requires Init(s)
    ensures OldKept(s, s) && s.eng.seg.start == s.start
  {
  }

  lemma {:induction false} OldAlways(states: seq<State>, steps: seq<Step>, i: nat)
    requires OrderlyRun(states, steps) && i <= |steps| && IsMax(states[0].start, states[0].ker.dir.Keys)
    ensures OldKept(states[0], states[i]) && IsMax(states[i].eng.seg.start, states[i].ker.dir.Keys)
  {
    hide Init, Enabled, Next, Orderly, OldKept, OthersKept, RouteInv, BatchInv, IoInv, DurableInv, ReplyInv, OutInv,
         Buffers.BufferInv, ContentInv, IsMax;
    if i == 0 {
      OldInit(states[0]);
    } else {
      OldAlways(states, steps, i - 1);
      InvAlways(states, steps, i - 1);
      StepKeepsOthers(states[i - 1], steps[i - 1]);
      OldStays(states[0], states[i - 1], states[i]);
    }
  }

  /** Names below a bound come first in the listing. */
  lemma LowFirst(all: set<nat>, low: set<nat>, bound: nat)
    requires low <= all && (forall n :: n in all ==> (n in low <==> n < bound))
    ensures |Sorted(low)| <= |Sorted(all)| && Sorted(all)[..|Sorted(low)|] == Sorted(low)
  {
    hide Sorted;
    var a, b := Sorted(low), Sorted(all - low);
    forall i | 0 <= i < |a| ensures a[i] < bound { assert a[i] in low; }
    forall j | 0 <= j < |b| ensures bound <= b[j] { assert b[j] in all - low; }
    assert forall x :: x in a + b <==> x in all by { assert forall x :: x in a + b <==> x in a || x in b; }
    AscendingUnique(a + b, Sorted(all));
  }

  /** What was there before the run is listed first after it, byte for byte, in anything a crash may leave. */
  lemma OlderSurvive(r: State, s: State, imgs: seq<bytes>)
    requires Init(r) && IsMax(r.start, r.ker.dir.Keys) && OldKept(r, s) && FilesOk(s) && AllSurvive(s, imgs)
    ensures DirOk(r.ker.files, r.ker.dir) && |Older(r)| <= |imgs| && imgs[..|Older(r)|] == Older(r)
  {
    hide Sorted, Listed, FilesOk, SurvivesAt, OldKept, Init, IsMax;
    var low := r.ker.dir.Keys - {r.start};
    assert DirOk(r.ker.files, r.ker.dir) by { InitDir(r); }
    SortedMax(r.ker.dir.Keys, r.start);
    OldNames(r, s);
    LowFirst(s.ker.dir.Keys, low, r.start);
    forall i | 0 <= i < |Sorted(low)| ensures imgs[i] == Older(r)[i] {
      assert SurvivesAt(s, i, imgs[i]);
      OldAt(r, s, i, imgs[i]);
    }
  }

  lemma InitDir(s: State)
    requires Init(s)
    ensures DirOk(s.ker.files, s.ker.dir)
  {
  }

  lemma OldAt(r: State, s: State, i: nat, img: bytes)
    requires Init(r) && DirOk(r.ker.files, r.ker.dir) && OldKept(r, s) && FilesOk(s)
    requires DirOk(s.ker.files, s.ker.dir) && i < |Sorted(s.ker.dir.Keys)| && SurvivesAt(s, i, img)
    requires i < |Sorted(r.ker.dir.Keys)| && Sorted(r.ker.dir.Keys)[i] == Sorted(s.ker.dir.Keys)[i] != r.start
    ensures img == Bases(Listed(r.ker.files, r.ker.dir))[i]
  {
    hide Sorted, Listed, FilesOk, Survives, OldKept, Init;
    ListedAt(r.ker.files, r.ker.dir, i);
    OldWhole(r, s, Sorted(r.ker.dir.Keys)[i], img);
  }

  lemma OldNames(r: State, s: State)
    requires Init(r) && IsMax(r.start, r.ker.dir.Keys) && OldKept(r, s)
    ensures var low := r.ker.dir.Keys - {r.start};
            low <= s.ker.dir.Keys && forall n :: n in s.ker.dir.Keys ==> (n in low <==> n < r.start)
  {
    forall n | n in r.ker.dir && n != r.start ensures n in s.ker.dir { assert SameSegment(r, s, n); }
    assert forall n :: n in s.ker.dir.Keys && n < r.start ==> n in r.ker.dir.Keys;
  }

  lemma OldWhole(r: State, s: State, n: nat, img: bytes)
    requires Init(r) && OldKept(r, s) && FilesOk(s) && n in r.ker.dir && n != r.start
    requires n in s.ker.dir && s.ker.dir[n] < |s.ker.files| && Survives(s.ker.files[s.ker.dir[n]], img)
    ensures r.ker.dir[n] < |r.ker.files| && img == r.ker.files[r.ker.dir[n]].base
  {
    hide Survives;
    assert SameSegment(r, s, n);
    assert Settled(r.ker.files[r.ker.dir[n]]);
    WholeKept(s.ker.files[s.ker.dir[n]], img);
  }

  /**
   A run over a tear is lost. Whatever it executed, made durable and answered, in any mode, and whether it
   ends in a crash or not: recovery stops at the old tear again and returns the map the run started with.
   */
  lemma TornStartLoses(states: seq<State>, steps: seq<Step>, snap: Option<bytes>, snapLsn: nat, snapDb: Kv,
                       imgs: seq<bytes>)
    requires OrderlyRun(states, steps)
    requires Base(snap) == Some((snapLsn, snapDb)) && TornStart(states[0], snapLsn, Progress(snapDb, snapLsn))
    requires AllSurvive(states[|steps|], imgs)
    ensures RecoverFrom(snap, imgs) == Recovered(states[0].db0, states[0].start)
  {
    hide Init, Enabled, Next, Orderly, OldKept, RouteInv, BatchInv, IoInv, DurableInv, ReplyInv, OutInv,
         Buffers.BufferInv, ContentInv, Base, ReplayAll, AllSurvive, Older, FilesOk, FileOk, IsMax;
    var r, s := states[0], states[|steps|];
    InvAlways(states, steps, |steps|);
    FilesSound(s);
    OldAlways(states, steps, |steps|);
    OlderSurvive(r, s, imgs);
    var k := |Older(r)|;
    assert imgs == imgs[..k] + imgs[k..];
    ReplayAllOnward(imgs[..k], imgs[k..], snapLsn, Progress(snapDb, snapLsn));
  }

  // ---- The run after a crash ----

  /** What the crash left of the active segment ends on a record: nothing torn is left behind. */
  ghost predicate NoTear(s: State, imgs: seq<bytes>) {
    s.eng.seg.ino < |s.ker.files| && imgs != [] && EndsOnRecord(Active(s), imgs[|imgs| - 1])
  }

  /** After a crash, `t` is started over what it left. */
  ghost predicate RestartsAfter(s: State, imgs: seq<bytes>, t: State, snap: Option<bytes>) {
    && AllSurvive(s, imgs) && Legible(s, imgs) && Reopens(t, s.ker.dir.Keys, imgs)
    && RecoverFrom(snap, imgs) == Recovered(t.db0, t.start)
  }

  /** The restart after a crash is clean if nothing torn was left, and else it is over a tear. */
  lemma CrashRestarts(states: seq<State>, steps: seq<Step>, imgs: seq<bytes>, t: State,
                      snap: Option<bytes>, snapLsn: nat, snapDb: Kv)
    requires OrderlyRun(states, steps)
    requires Base(snap) == Some((snapLsn, snapDb)) && CleanStart(states[0], snapLsn, Progress(snapDb, snapLsn))
    requires states[|steps|].lsn < U64 && RestartsAfter(states[|steps|], imgs, t, snap)
    requires states[|steps|].eng.seg.start < t.start
    ensures if NoTear(states[|steps|], imgs) then CleanStart(t, snapLsn, Progress(snapDb, snapLsn))
            else TornStart(t, snapLsn, Progress(snapDb, snapLsn))
  {
    hide Init, Enabled, Next, CleanStart, TornStart, Base, ReplayAll, Orderly, TidyInv, Shelved, Inv, AllSurvive,
         Legible, Reopens, RecsOf, Exec, WellFormed, ReplaysTo, Loggable, HasSafe, EndsOnRecord, AllLoggable;
    var s, at0 := states[|steps|], Progress(snapDb, snapLsn);
    OrderlyTidy(states, steps, snapLsn, at0);
    InvAlways(states, steps, |steps|);
    var j := ReplayState(s, imgs, snapLsn, at0);
    assert Shelved(s.ker.files, s.ker.dir, s.eng.seg) by { TidyBasics(s, s.ker.dir, snapLsn, at0); }
    NamesUpTo(s.ker.files, s.ker.dir, s.eng.seg, t.start - 1);
    if NoTear(s, imgs) {
      CleanRestart(t, s.ker.dir.Keys, imgs, snapLsn, at0);
    } else {
      TornRestart(t, s.ker.dir.Keys, imgs, snapLsn, at0);
    }
  }

  /** What a file holds, nothing having been lost, is one thing that may survive. */
  lemma DataSurvives(s: State, segs: seq<bytes>)
    requires FilesOk(s) && FileOk(Active(s)) && SegmentData(s, segs)
    ensures AllSurvive(s, segs)
  {
    hide Sorted, Listed, FilesOk;
    forall i | 0 <= i < |segs| ensures SurvivesAt(s, i, segs[i]) {
      ListedAt(s.ker.files, s.ker.dir, i);
      AllFilesOk(s, s.ker.dir[Sorted(s.ker.dir.Keys)[i]]);
    }
  }

  /** Without a PUT the map and the LSN stay as they were. */
  lemma SameWithoutPuts(s: State)
    requires HistoryOk(s)
    ensures s.start <= s.lsn && (s.lsn == s.start ==> s.db == s.db0)
  {
    hide RecsOf, Exec, WellFormed, Loggable, PutAll;
    if s.lsn == s.start {
      ExecIsPutAll(s.db0, s.start, s.hist);
      PutNone(s.db0);
    }
  }

  /**
   When the run after a crash is recovered. The first run crashes, the second is started over what is left
   and ends quiet, with nothing lost. Recovery then returns its map if and only if the crash left the log
   ending on a record, or the second run took no PUT. Otherwise the second run is as if it had never been.
   */
  lemma SecondRun(states: seq<State>, steps: seq<Step>, imgs: seq<bytes>, later: seq<State>, more: seq<Step>,
                  snap: Option<bytes>, snapLsn: nat, snapDb: Kv, segs: seq<bytes>)
    requires OrderlyRun(states, steps) && OrderlyRun(later, more)
    requires Base(snap) == Some((snapLsn, snapDb)) && CleanStart(states[0], snapLsn, Progress(snapDb, snapLsn))
    requires states[|steps|].lsn < U64 && RestartsAfter(states[|steps|], imgs, later[0], snap)
    requires states[|steps|].eng.seg.start < later[0].start
    requires Quiet(later[|more|]) && SegmentData(later[|more|], segs)
    ensures var u := later[|more|];
            && (RecoverFrom(snap, segs) == Recovered(u.db, if u.lsn == u.start then u.start else u.lsn + 1)
                <==> NoTear(states[|steps|], imgs) || u.lsn == u.start)
            && (!NoTear(states[|steps|], imgs) ==> RecoverFrom(snap, segs) == RecoverFrom(snap, imgs))
  {
    hide Init, Enabled, Next, CleanStart, TornStart, Base, RecoverFrom, Orderly, NoTear, NoWrites, WritesIn,
         SegmentData, AllSurvive, RouteInv, BatchInv, DurableInv, ReplyInv, OutInv, Buffers.BufferInv, ContentInv,
         HistoryOk, SpansOk, WatermarkOk, LineInv, PlanOk, ResultsOk, LineOf, FileOk, Reopens, Legible;
    var t, u := later[0], later[|more|];
    CrashRestarts(states, steps, imgs, t, snap, snapLsn, snapDb);
    if NoTear(states[|steps|], imgs) {
      QuietRecovery(later, more, snap, snapLsn, snapDb, segs);
    } else {
      InvAlways(later, more, |more|);
      FilesSound(u);
      DataSurvives(u, segs);
      TornStartLoses(later, more, snap, snapLsn, snapDb, segs);
      RunGrows(later, more, 0, |more|);
      HistoryFromBatch(u);
      SameWithoutPuts(u);
    }
  }

  // ---- The plainest case ----

  lemma ReplayRec1(lsn: nat, key: byte, val: byte, tail: bytes, at: Progress)
    requires at.highest < lsn < U64
    ensures Replay(Encode(Rec1(lsn, key, val)) + tail, 0, at)
         == Replay(tail, 0, Progress(at.db[[key] := [val]], lsn))
  {
    hide Rec1, Encode, Replay, Absorb, PutAll, Loggable, ApplyPut;
    var r := Rec1(lsn, key, val);
    Rec1Puts(lsn, key, val, at.db);
    assert r.lsn == lsn by { Rec1Lsn(lsn, key, val); }
    LogOfOne(r);
    PutOne(at.db, r);
    ReplayLog([r], tail, 0, at);
    AbsorbAbove([r], 0, at);
  }

  lemma Rec1Lsn(lsn: nat, key: byte, val: byte)
    ensures Rec1(lsn, key, val).lsn == lsn
  {
  }

  lemma OneByteTorn()
    ensures Decode([0]) == Torn
  {
  }

  /**
   A record, one byte of the next behind it, and after the restart a whole record in a segment of its own:
   recovery does not see the second record. Without the torn byte it does.
   */
  lemma TornRestartExample()
    ensures var a, b := Rec1(1, 97, 1), Rec1(2, 97, 2);
            && RecoverFrom(None, [Encode(a) + [0], Encode(b)]) == Recovered(map[[97] := [1]], 2)
            && RecoverFrom(None, [Encode(a), Encode(b)]) == Recovered(map[[97] := [2]], 3)
  {
    hide Rec1, Encode, Decode, Replay;
    var a, b := Rec1(1, 97, 1), Rec1(2, 97, 2);
    var none, one := Progress(map[], 0), Progress(map[[97] := [1]], 1);
    assert map[][[97] := [1]] == map[[97] := [1]] && map[[97] := [1]][[97] := [2]] == map[[97] := [2]];
    OneByteTorn();
    ReplayTorn([0], 0, one);
    ReplayRec1(1, 97, 1, [0], none);
    ReplayRec1(1, 97, 1, [], none);
    ReplayRec1(2, 97, 2, [], one);
    ReplayTorn([], 0, one);
    ReplayTorn([], 0, Progress(map[[97] := [2]], 2));
    assert Encode(a) + [] == Encode(a) && Encode(b) + [] == Encode(b);
    ReplayAllOnward([Encode(a)], [Encode(b)], 0, none);
    OneSegment(Encode(a), 0, none);
    OneSegment(Encode(b), 0, one);
    assert [Encode(a), Encode(b)] == [Encode(a)] + [Encode(b)];
    ReplayAllOnward([Encode(a) + [0]], [Encode(b)], 0, none);
    OneSegment(Encode(a) + [0], 0, none);
    assert [Encode(a) + [0], Encode(b)] == [Encode(a) + [0]] + [Encode(b)];
  }
}
