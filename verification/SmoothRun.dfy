/**
 Runs in which the kernel never writes short and never asks for a retry: writes then start in LSN order
 between fsyncs, and what an fsync makes durable is a gap-free prefix of the segment.
 */
module SmoothRun {
  import opened WalFormat
  import opened IoLine

  ghost predicate AllOrNothing(line: seq<Slot>, nCq: nat) {
    forall i :: 0 <= i < |line| && line[i].work.Write? ==>
      line[i].work.done == 0 && (i < nCq ==> line[i].landed == |line[i].work.batch.out|)
  }

  /** Writes the kernel has not completed stand in file order. */
  ghost predicate InOrder(line: seq<Slot>, nCq: nat) {
    forall i, j :: nCq <= i < j < |line| && line[i].work.Write? && line[j].work.Write? ==>
      line[i].work.offset + |line[i].work.batch.out| <= line[j].work.offset
  }

  /** A write queued behind a waiting fsync lies beyond everything the file holds so far. */
  ghost predicate FlushSeparates(line: seq<Slot>, nCq: nat, f: File) {
    forall i, j :: nCq <= j < i < |line| && line[j].work.Fsync? && line[i].work.Write? ==>
      |f.data| <= line[i].work.offset
  }

  ghost predicate SolidPrefix(f: File) {
    |f.synced| <= |f.want| && forall p: nat :: p < |f.synced| ==> SyncedAt(f, p)
  }

  /** Nothing still missing lies below what has been made durable. */
  ghost predicate MissingAbove(line: seq<Slot>, nCq: nat, f: File) {
    forall i :: nCq <= i < |line| && line[i].work.Write? ==> |f.synced| <= line[i].work.offset
  }

  ghost predicate SmoothInv(line: seq<Slot>, nCq: nat, f: File) {
    && AllOrNothing(line, nCq) && InOrder(line, nCq) && FlushSeparates(line, nCq, f) && SolidPrefix(f)
    && MissingAbove(line, nCq, f)
  }

  lemma SmoothWrite(line: seq<Slot>, nCq: nat, f: File, x: Slot, recs: seq<Rec>)
    requires LineInv(line, nCq, f) && SmoothInv(line, nCq, f)
    requires x.work.Write? && x.work.done == 0 && x.work.offset == |f.want|
    ensures SmoothInv(line + [x], nCq, Grown(f, recs, x.work.batch.out))
  {
    var line', f' := line + [x], Grown(f, recs, x.work.batch.out);
    GrownKeeps(f, recs, x.work.batch.out);
    assert forall i :: 0 <= i < |line| ==> line'[i] == line[i] && SlotOk(line[i], f);
    assert forall p: nat :: p < |f'.synced| ==> SyncedAt(f, p);
  }

  /** A failed fsync leaves the file, and everything that waits, as it was. */
  lemma SmoothFailed(line: seq<Slot>, c: nat, f: File, x: Slot)
    requires SmoothInv(line, c, f) && c < |line| && line[c].work.Fsync? && x.work == line[c].work
    ensures SmoothInv(line[c := x], c + 1, f)
  {
  }

  lemma SmoothAppend(line: seq<Slot>, nCq: nat, f: File, x: Slot)
    requires SmoothInv(line, nCq, f) && !x.work.Write?
    ensures SmoothInv(line + [x], nCq, f)
  {
    assert forall i :: 0 <= i < |line| ==> (line + [x])[i] == line[i];
  }

  lemma OrderMoved(line: seq<Slot>, c: nat, m: nat, x: Slot)
    requires InOrder(line, c) && c <= m < |line|
    ensures InOrder(Moved(line, c, m, x), c + 1)
  {
    hide Moved;
    var line' := Moved(line, c, m, x);
    forall i, j | c + 1 <= i < j < |line'| && line'[i].work.Write? && line'[j].work.Write?
      ensures line'[i].work.offset + |line'[i].work.batch.out| <= line'[j].work.offset
    {
      StillBehind(line, c, m, x, i);
      StillBehind(line, c, m, x, j);
      assert Origin(c, m, i) < Origin(c, m, j);
    }
  }

  /** Behind the place the moved operation went to stand the others, in their old order. */
  lemma StillBehind(line: seq<Slot>, c: nat, m: nat, x: Slot, i: nat)
    requires c <= m < |line| && c + 1 <= i < |line|
    ensures c <= Origin(c, m, i) < |line| && Moved(line, c, m, x)[i] == line[Origin(c, m, i)]
  {
  }

  lemma SeparatesMoved(line: seq<Slot>, c: nat, f: File, m: nat)
    requires InOrder(line, c) && FlushSeparates(line, c, f) && c <= m < |line| && line[m].work.Write?
    requires forall j :: c <= j < m ==> !line[j].work.Fsync?
    requires line[m].work.done == 0
    ensures var w := line[m].work;
            FlushSeparates(Moved(line, c, m, Slot(w, |w.batch.out|)), c + 1, Landing(f, w, |w.batch.out|))
  {
    hide Moved, WriteAt;
    var w := line[m].work;
    var line', f' := Moved(line, c, m, Slot(w, |w.batch.out|)), Landing(f, w, |w.batch.out|);
    assert |f'.data| <= |f.data| || |f'.data| == w.offset + |w.batch.out|;
    forall i, j | c + 1 <= j < i < |line'| && line'[j].work.Fsync? && line'[i].work.Write?
      ensures |f'.data| <= line'[i].work.offset
    {
      var a, b := Origin(c, m, i), Origin(c, m, j);
      assert line'[i] == line[a] && line'[j] == line[b];
      assert m < b < a;
    }
  }

  /** The kernel writes a whole batch; drain order keeps every waiting fsync behind it. */
  lemma SmoothPost(line: seq<Slot>, c: nat, f: File, m: nat)
    requires SmoothInv(line, c, f) && c <= m < |line| && line[m].work.Write?
    requires forall j :: c <= j < m ==> !line[j].work.Fsync?
    ensures var w := line[m].work;
            SmoothInv(Moved(line, c, m, Slot(w, |w.batch.out|)), c + 1, Landing(f, w, |w.batch.out|))
  {
    hide Moved, WriteAt, InOrder, FlushSeparates;
    var w := line[m].work;
    var x := Slot(w, |w.batch.out|);
    var line', f' := Moved(line, c, m, x), Landing(f, w, |w.batch.out|);
    OrderMoved(line, c, m, x);
    SeparatesMoved(line, c, f, m);
    assert AllOrNothing(line', c + 1) by {
      assert forall i :: 0 <= i < |line'| && i != c ==> line'[i] == line[Origin(c, m, i)];
    }
    forall p: nat | p < |f'.synced| ensures SyncedAt(f', p) {
      assert SyncedAt(f, p);
    }
    forall i | c + 1 <= i < |line'| && line'[i].work.Write? ensures |f'.synced| <= line'[i].work.offset {
      assert line'[i] == line[Origin(c, m, i)];
    }
  }

  lemma SmoothPostRemove(line: seq<Slot>, c: nat, f: File, m: nat)
    requires SmoothInv(line, c, f) && c <= m < |line| && line[m].work.Remove?
    ensures SmoothInv(Moved(line, c, m, line[m]), c + 1, f)
  {
    hide Moved, InOrder;
    var line' := Moved(line, c, m, line[m]);
    OrderMoved(line, c, m, line[m]);
    assert forall i :: 0 <= i < |line'| && i != c ==> line'[i] == line[Origin(c, m, i)];
    forall i, j | c + 1 <= j < i < |line'| && line'[j].work.Fsync? && line'[i].work.Write?
      ensures |f.data| <= line'[i].work.offset
    {
      var a, b := Origin(c, m, i), Origin(c, m, j);
      assert line[b].work.Fsync? && line[a].work.Write? && c <= b < a;
    }
  }

  /** What the fsync makes durable has no hole: nothing below the end of the file is still missing. */
  lemma SmoothFlush(line: seq<Slot>, c: nat, f: File)
    requires LineInv(line, c, f) && SmoothInv(line, c, f) && c < |line| && line[c].work.Fsync?
    ensures SmoothInv(line, c + 1, SyncedNow(f))
  {
    var f' := SyncedNow(f);
    forall p: nat | p < |f'.synced| ensures SyncedAt(f', p) {
      assert LandedAt(f, p) || Claimed(line, p);
      if i :| 0 <= i < |line| && Cov(line[i], p) {
        assert i > c;
        assert |f.data| <= line[i].work.offset;
      }
    }
  }

  lemma SmoothTake(line: seq<Slot>, nCq: nat, f: File)
    requires SmoothInv(line, nCq, f) && 0 < nCq <= |line|
    ensures SmoothInv(line[1..], nCq - 1, f)
  {
    assert forall i :: 0 <= i < |line[1..]| ==> line[1..][i] == line[i + 1];
  }
}
