/**
 Group commit in Sync mode (crates/server/src/stage3/fsync_planner.rs, stage3/mod.rs): at most one
 fsync is under way, `flush_running` says exactly whether one is, and nobody waiting for durability is
 forgotten: each unfinished write has an fsync ordered behind it or keeps `dirty_bytes` above zero.
 */
module FsyncDuty {
  import opened IoLine

  ghost predicate FlushBehind(line: seq<Slot>, i: int) {
    exists j :: 0 <= j < |line| && i < j && line[j].work.Fsync?
  }

  ghost predicate OneFlush(line: seq<Slot>) {
    forall i, j :: 0 <= i < |line| && 0 <= j < |line| && line[i].work.Fsync? && line[j].work.Fsync? ==> i == j
  }

  /** `owed` says whether some fully written batch still waits for an fsync. */
  ghost predicate DutyInv(line: seq<Slot>, dirty: nat, flushing: bool, owed: bool) {
    && OneFlush(line)
    && (flushing <==> FlushBehind(line, -1))
    && (forall i :: 0 <= i < |line| && line[i].work.Write? ==> dirty > 0 || FlushBehind(line, i))
    && (owed ==> dirty > 0 || FlushBehind(line, -1))
  }

  lemma DutyAppend(line: seq<Slot>, dirty: nat, flushing: bool, owed: bool, x: Slot, dirty': nat)
    requires DutyInv(line, dirty, flushing, owed) && !x.work.Fsync?
    requires dirty' >= dirty && (x.work.Write? ==> dirty' > 0)
    ensures DutyInv(line + [x], dirty', flushing, owed)
  {
    var line' := line + [x];
    assert forall i :: 0 <= i < |line| ==> line'[i] == line[i];
    forall i | -1 <= i < |line| ensures FlushBehind(line, i) <==> FlushBehind(line', i) {
      if j :| 0 <= j < |line| && i < j && line[j].work.Fsync? { assert line'[j].work.Fsync?; }
      if j :| 0 <= j < |line'| && i < j && line'[j].work.Fsync? { assert line[j].work.Fsync?; }
    }
  }

  lemma DutyArm(line: seq<Slot>, dirty: nat, owed: bool, x: Slot)
    requires DutyInv(line, dirty, false, owed) && x.work.Fsync?
    ensures DutyInv(line + [x], 0, true, owed)
  {
    var line' := line + [x];
    forall i | 0 <= i < |line| ensures !line[i].work.Fsync? {
    }
    assert line'[|line|].work.Fsync?;
    assert forall i :: -1 <= i < |line| ==> FlushBehind(line', i);
  }

  lemma BehindMoved(line: seq<Slot>, c: nat, m: nat, x: Slot, i: int)
    requires c <= m < |line| && !line[m].work.Fsync? && x.work == line[m].work
    requires -1 <= i < |line| && FlushBehind(line, i)
    ensures FlushBehind(Moved(line, c, m, x), Place(c, m, i))
  {
    hide Moved;
    var j :| 0 <= j < |line| && i < j && line[j].work.Fsync?;
    assert Moved(line, c, m, x)[Place(c, m, j)].work.Fsync?;
  }

  lemma BehindMarked(line: seq<Slot>, c: nat, x: Slot, i: int)
    requires c < |line| && x.work == line[c].work
    ensures FlushBehind(line, i) <==> FlushBehind(line[c := x], i)
  {
    var line' := line[c := x];
    if j :| 0 <= j < |line| && i < j && line[j].work.Fsync? { assert line'[j].work.Fsync?; }
    if j :| 0 <= j < |line'| && i < j && line'[j].work.Fsync? { assert line[j].work.Fsync?; }
  }

  /** An fsync found to have failed still stands in the line until it is reaped. */
  lemma DutyMarked(line: seq<Slot>, dirty: nat, flushing: bool, owed: bool, c: nat, x: Slot)
    requires DutyInv(line, dirty, flushing, owed) && c < |line| && x.work == line[c].work
    ensures DutyInv(line[c := x], dirty, flushing, owed)
  {
    hide FlushBehind;
    var line' := line[c := x];
    assert forall i :: 0 <= i < |line| ==> line'[i].work == line[i].work;
    forall i | -1 <= i < |line| ensures FlushBehind(line, i) <==> FlushBehind(line', i) { BehindMarked(line, c, x, i); }
  }

  lemma OneFlushMoved(line: seq<Slot>, c: nat, m: nat, x: Slot)
    requires OneFlush(line) && c <= m < |line| && x.work == line[m].work
    ensures OneFlush(Moved(line, c, m, x))
  {
    hide Moved;
    var line' := Moved(line, c, m, x);
    forall i, j | 0 <= i < |line'| && 0 <= j < |line'| && line'[i].work.Fsync? && line'[j].work.Fsync? ensures i == j {
      assert line[Origin(c, m, i)].work.Fsync? && line[Origin(c, m, j)].work.Fsync?;
    }
  }

  /** An fsync found in the line afterwards was in it before. */
  lemma FlushOrigin(line: seq<Slot>, c: nat, m: nat, x: Slot)
    requires c <= m < |line| && x.work == line[m].work && FlushBehind(Moved(line, c, m, x), -1)
    ensures FlushBehind(line, -1)
  {
    hide Moved;
    var line' := Moved(line, c, m, x);
    var j :| 0 <= j < |line'| && -1 < j && line'[j].work.Fsync?;
    assert line[Origin(c, m, j)].work.Fsync?;
  }

  lemma DutyMoved(line: seq<Slot>, dirty: nat, flushing: bool, owed: bool, c: nat, m: nat, x: Slot)
    requires DutyInv(line, dirty, flushing, owed) && c <= m < |line|
    requires !line[m].work.Fsync? && x.work == line[m].work
    ensures DutyInv(Moved(line, c, m, x), dirty, flushing, owed)
  {
    hide Moved, FlushBehind, OneFlush;
    var line' := Moved(line, c, m, x);
    if FlushBehind(line, -1) { BehindMoved(line, c, m, x, -1); }
    if FlushBehind(line', -1) { FlushOrigin(line, c, m, x); }
    forall i | 0 <= i < |line'| && line'[i].work.Write? ensures dirty > 0 || FlushBehind(line', i) {
      var a := Origin(c, m, i);
      assert line[a].work.Write?;
      if FlushBehind(line, a) { BehindMoved(line, c, m, x, a); }
    }
    OneFlushMoved(line, c, m, x);
  }

  /** A fully written batch leaves the line and joins those waiting for the next fsync. */
  lemma DutyWritten(line: seq<Slot>, dirty: nat, flushing: bool, owed: bool, owed': bool)
    requires DutyInv(line, dirty, flushing, owed) && |line| > 0 && !line[0].work.Fsync?
    requires owed' ==> owed || line[0].work.Write?
    ensures DutyInv(line[1..], dirty, flushing, owed')
  {
    var line' := line[1..];
    forall i | -1 <= i < |line'| ensures FlushBehind(line, i + 1) <==> FlushBehind(line', i) {
      if j :| 0 <= j < |line| && i + 1 < j && line[j].work.Fsync? { assert line'[j - 1].work.Fsync?; }
      if j :| 0 <= j < |line'| && i < j && line'[j].work.Fsync? { assert line[j + 1].work.Fsync?; }
    }
    assert FlushBehind(line, -1) <==> FlushBehind(line, 0);
    assert forall i, j :: 0 <= i < |line'| && 0 <= j < |line'| && line'[i].work.Fsync? && line'[j].work.Fsync? ==>
      line[i + 1].work.Fsync? && line[j + 1].work.Fsync?;
  }

  /** The fsync's completion is reaped: everyone waiting has been served, and no fsync is left. */
  lemma DutyFlushed(line: seq<Slot>, dirty: nat, flushing: bool, owed: bool)
    requires DutyInv(line, dirty, flushing, owed) && |line| > 0 && line[0].work.Fsync?
    ensures DutyInv(line[1..], dirty, false, false)
  {
    var line' := line[1..];
    forall i | 0 <= i < |line'| ensures !line'[i].work.Fsync? {
      assert line'[i] == line[i + 1];
    }
    forall i | 0 <= i < |line'| && line'[i].work.Write? ensures dirty > 0 {
      assert line'[i] == line[i + 1];
    }
  }

  lemma DutyRequeued(line: seq<Slot>, dirty: nat, flushing: bool, owed: bool, q: nat, dirty': nat)
    requires DutyInv(line, dirty, flushing, owed) && 0 <= q < |line| && line[0].work.Write? && dirty' > 0
    ensures DutyInv(Requeued(line, q), dirty', flushing, owed)
  {
    hide Requeued;
    var line' := Requeued(line, q);
    if j :| 0 <= j < |line| && -1 < j && line[j].work.Fsync? { assert line'[Back(q, j)].work.Fsync?; }
    if j :| 0 <= j < |line'| && -1 < j && line'[j].work.Fsync? { assert line[Fore(q, j)].work.Fsync?; }
  }
}
