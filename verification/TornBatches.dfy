/**
 Torn batches: a batch that is partly in the file, with a gap before what follows. As long as every batch
 of the active segment is there in full, not at all, or cut short by the end of the file, a crash leaves
 whole batches, holes and a tail.
 */
module TornBatches {
  import opened Bytes
  import opened IoLine
  import opened Pipeline
  import opened Batches
  import opened Storage
  import opened Durability

  predicate Within(loc: Loc, p: int) { loc.off <= p < loc.off + loc.len }

  ghost predicate Present(f: File, c: bytes, loc: Loc)
    requires loc.off + loc.len <= |f.want|
  {
    forall p: nat :: Within(loc, p) ==> p < |c| && c[p] == f.want[p]
  }

  ghost predicate Absent(c: bytes, loc: Loc) {
    forall p: nat :: Within(loc, p) && p < |c| ==> c[p] == 0
  }

  /** Of the batch at `loc`, the content `c` of the file holds everything or nothing. */
  ghost predicate Entire(f: File, c: bytes, loc: Loc) {
    loc.off + loc.len <= |f.want| && (Present(f, c, loc) || Absent(c, loc))
  }

  /** Of the batch at `loc`, the content `c` has the first bytes, and ends there. */
  ghost predicate CutOff(f: File, c: bytes, loc: Loc)
    requires loc.off + loc.len <= |f.want|
  {
    |c| < loc.off + loc.len && forall p: nat :: Within(loc, p) && p < |c| ==> c[p] == f.want[p]
  }

  /** Each batch is in the file in full, not at all, or begun at its very end, by a write still unfinished. */
  ghost predicate DataEntire(s: State) {
    && s.eng.seg.ino < |s.ker.files|
    && forall k :: 0 <= k < |s.locs| && s.locs[k].ino == s.eng.seg.ino ==>
      && s.locs[k].off + s.locs[k].len <= |Active(s).want|
      && (Entire(Active(s), Active(s).data, s.locs[k]) || CutOff(Active(s), Active(s).data, s.locs[k]))
  }

  ghost predicate SyncedEntire(s: State) {
    && s.eng.seg.ino < |s.ker.files|
    && forall k :: 0 <= k < |s.locs| && s.locs[k].ino == s.eng.seg.ino ==>
      Entire(Active(s), Active(s).synced, s.locs[k])
  }

  /**
   No batch is torn, neither in the active segment nor in what was last fsynced of it. A short write may be
   unfinished at the end of the file.
   */
  ghost predicate NoTorn(s: State) { DataEntire(s) && SyncedEntire(s) }

  /** Each outstanding write has reached the file in full or not at all. */
  ghost predicate WholeOrNone(line: seq<Slot>) {
    forall i :: 0 <= i < |line| && line[i].work.Write? ==>
      line[i].work.done == 0 && (line[i].landed == 0 || line[i].landed == |line[i].work.batch.out|)
  }

  // ---- The file ----

  ghost predicate MissingBatch(line: seq<Slot>, i: int, k: nat) {
    0 <= i < |line| && line[i].work.Write? && line[i].work.batch.no == k && line[i].landed == 0
  }

  lemma PlaceOf(s: State, i: nat)
    requires BatchInv(s) && DurableInv(s) && i < |Line(s)| && Line(s)[i].work.Write?
    ensures var w := Line(s)[i].work;
            && w.batch.no < |s.locs| && s.locs[w.batch.no] == Loc(s.eng.seg.ino, w.offset, |w.batch.out|)
  {
    hide HistoryOk, SpansOk, ChanOk, WaitersOk, LineOf, BatchAt, DurableInv, PoolOk, DistinctWrites;
    HistoryBasics(s);
    assert WriteOk(s, Line(s)[i].work);
  }

  lemma PlacesApart(s: State, j: nat, k: nat, p: int)
    requires DurableInv(s) && j < |s.locs| && k < |s.locs| && s.locs[j].ino == s.locs[k].ino
    requires Within(s.locs[j], p) && Within(s.locs[k], p)
    ensures j == k
  {
    hide LevelTrue;
    assert PlacedOk(s, j) && PlacedOk(s, k);
  }

  /** A byte of a batch that has not landed belongs to its own outstanding write. */
  lemma OwnWrite(s: State, k: nat, p: nat) returns (i: nat)
    requires IoInv(s) && BatchInv(s) && DurableInv(s) && WholeOrNone(Line(s))
    requires k < |s.locs| && s.locs[k].ino == s.eng.seg.ino && Within(s.locs[k], p)
    requires p < |Active(s).want| && !LandedAt(Active(s), p)
    ensures MissingBatch(Line(s), i, k)
  {
    hide BatchInv, DurableInv, PlanOk, ResultsOk, LineOf;
    var line, f := Line(s), Active(s);
    assert LandedAt(f, p) || Claimed(line, p);
    i :| 0 <= i < |line| && Cov(line[i], p);
    PlaceOf(s, i);
    PlacesApart(s, line[i].work.batch.no, k, p);
  }

  lemma BatchEntire(s: State, k: nat)
    requires IoInv(s) && BatchInv(s) && DurableInv(s) && WholeOrNone(Line(s))
    requires k < |s.locs| && s.locs[k].ino == s.eng.seg.ino
    ensures Entire(Active(s), Active(s).data, s.locs[k])
  {
    hide BatchInv, DurableInv, PlanOk, ResultsOk, LineOf, WholeOrNone, FlushesSeen, Covered, SlotsOk;
    var line, f, loc := Line(s), Active(s), s.locs[k];
    assert loc.off + loc.len <= |f.want| by { PlaceFits(s, k); }
    if i: nat :| MissingBatch(line, i, k) {
      PlaceOf(s, i);
      forall p: nat | Within(loc, p) && p < |f.data| ensures f.data[p] == 0 {
        assert Cov(line[i], p);
      }
    } else {
      forall p: nat | Within(loc, p) ensures LandedAt(f, p) {
        if !LandedAt(f, p) { var i := OwnWrite(s, k, p); }
      }
    }
  }

  lemma PlaceFits(s: State, k: nat)
    requires DurableInv(s) && k < |s.locs|
    ensures s.locs[k].ino < |s.ker.files| && s.locs[k].off + s.locs[k].len <= |s.ker.files[s.locs[k].ino].want|
  {
    hide LevelTrue;
    assert PlacedOk(s, k);
  }

  lemma EntireAll(s: State)
    requires s.eng.seg.ino < |s.ker.files|
    requires forall k :: 0 <= k < |s.locs| && s.locs[k].ino == s.eng.seg.ino ==>
      Entire(Active(s), Active(s).data, s.locs[k])
    ensures DataEntire(s)
  {
    hide Present, Absent, CutOff;
  }

  /** As long as each outstanding write is whole or absent, so is each batch. */
  lemma WholeWritesEntire(s: State)
    requires IoInv(s) && BatchInv(s) && DurableInv(s) && WholeOrNone(Line(s))
    ensures DataEntire(s)
    ensures forall k :: 0 <= k < |s.locs| && s.locs[k].ino == s.eng.seg.ino ==>
      Entire(Active(s), Active(s).data, s.locs[k])
  {
    hide BatchInv, DurableInv, PlanOk, ResultsOk, LineOf, LineInv, WholeOrNone, Entire, CutOff;
    forall k | 0 <= k < |s.locs| && s.locs[k].ino == s.eng.seg.ino
      ensures Entire(Active(s), Active(s).data, s.locs[k])
    {
      BatchEntire(s, k);
    }
    EntireAll(s);
  }
}
