/**
 The line of outstanding I/O against the active segment, oldest end first: completions posted and not
 yet reaped, then operations the kernel still owns in submission order, then operations not yet
 submitted. Every step of the engine or the kernel edits this one sequence: it appends at the back,
 takes the head, takes the head back in further down (a retry), or moves one operation forward to the
 last completed place. This module says what each edit preserves, byte position by byte position.
 */
module IoLine {
  import opened Bytes
  import opened WalFormat
  import opened IoWork

  /**
   A segment file. `data` is what a reader sees now, `synced` what the last fsync saw, `want` what the
   file will hold once every queued write has landed: its content `base` before this run, then the
   records `recs` appended by it.
   */
  datatype File = File(base: bytes, recs: seq<Rec>, want: bytes, data: bytes, synced: bytes)

  /** An operation in the line; `landed` counts the bytes of its batch that have reached the file. */
  datatype Slot = Slot(work: Work, landed: nat)

  /** pwrite: a gap between the end of the file and `off` reads as zeroes. */
  function WriteAt(data: bytes, off: nat, chunk: bytes): (r: bytes)
    ensures |r| == if chunk != [] && off + |chunk| > |data| then off + |chunk| else |data|
    ensures forall p :: 0 <= p < |r| ==>
              r[p] == if off <= p < off + |chunk| then chunk[p - off] else if p < |data| then data[p] else 0
  {
    seq(if chunk != [] && off + |chunk| > |data| then off + |chunk| else |data|, p requires 0 <= p =>
      if off <= p < off + |chunk| then chunk[p - off] else if p < |data| then data[p] else 0)
  }

  // ---- Vocabulary ----

  predicate InRange(x: Slot, p: int) {
    x.work.Write? && x.work.offset <= p < x.work.offset + |x.work.batch.out|
  }

  /** `p` belongs to the part of a write that the engine still counts as unwritten. */
  predicate Out(x: Slot, p: int) { InRange(x, p) && x.work.offset + x.work.done <= p }

  /** `p` belongs to the part of a write that has not reached the file. */
  predicate Cov(x: Slot, p: int) { InRange(x, p) && x.work.offset + x.landed <= p }

  predicate LandedAt(f: File, p: nat)
    requires p < |f.want|
  {
    p < |f.data| && f.data[p] == f.want[p]
  }

  predicate SyncedAt(f: File, p: nat)
    requires p < |f.want|
  {
    p < |f.synced| && f.synced[p] == f.want[p]
  }

  ghost predicate Claimed(line: seq<Slot>, p: int) {
    exists i :: 0 <= i < |line| && Cov(line[i], p)
  }

  ghost predicate SlotOk(x: Slot, f: File) {
    x.work.Write? ==>
      && x.work.done <= x.landed <= |x.work.batch.out|
      && x.work.done < |x.work.batch.out|
      && x.work.offset + |x.work.batch.out| <= |f.want|
      && forall p :: InRange(x, p) ==> f.want[p] == x.work.batch.out[p - x.work.offset]
  }

  ghost predicate SlotsOk(line: seq<Slot>, nCq: nat, f: File) {
    && (forall i :: 0 <= i < |line| ==> SlotOk(line[i], f))
    && (forall i :: nCq <= i < |line| && line[i].work.Write? ==> line[i].landed == line[i].work.done)
  }

  predicate Apart(x: Slot, y: Slot) {
    x.work.Write? && y.work.Write? ==>
      || x.work.offset + |x.work.batch.out| <= y.work.offset
      || y.work.offset + |y.work.batch.out| <= x.work.offset
  }

  /** The write ranges in the line are pairwise disjoint. */
  ghost predicate Disjoint(line: seq<Slot>) {
    forall i, j :: 0 <= i < j < |line| ==> Apart(line[i], line[j])
  }

  /** Every byte the file should hold is there, or is still claimed by a write in the line. */
  ghost predicate Covered(line: seq<Slot>, f: File) {
    forall p: nat :: p < |f.want| ==> LandedAt(f, p) || Claimed(line, p)
  }

  /** What has not reached the file reads as zero. */
  ghost predicate HolesZero(line: seq<Slot>, f: File) {
    forall i, p :: 0 <= i < |line| && Cov(line[i], p) && p < |f.data| ==> f.data[p] == 0
  }

  ghost predicate FlushCovers(line: seq<Slot>, f: File, j: nat, p: nat)
    requires p < |f.want|
  {
    || SyncedAt(f, p)
    || Claimed(line, p)
    || exists i :: j < i < |line| && Out(line[i], p)
  }

  /** An fsync that is not marked as failed. */
  predicate FlushDone(x: Slot) { x.work.Fsync? && x.landed == 0 }

  /**
   An fsync whose completion is posted at `j`, and did not fail, has made durable every byte except those that have not
   reached the file at all and those of writes whose completion comes after its own.
   */
  ghost predicate FlushesSeen(line: seq<Slot>, nCq: nat, f: File)
    requires nCq <= |line|
  {
    forall j, p: nat :: 0 <= j < nCq && FlushDone(line[j]) && p < |f.want| ==> FlushCovers(line, f, j, p)
  }

  ghost predicate FileOk(f: File) {
    && |f.synced| <= |f.data| <= |f.want|
    && forall p: nat :: p < |f.want| && SyncedAt(f, p) ==> LandedAt(f, p)
  }

  ghost predicate LineInv(line: seq<Slot>, nCq: nat, f: File) {
    && nCq <= |line|
    && FileOk(f)
    && SlotsOk(line, nCq, f)
    && Disjoint(line)
    && Covered(line, f)
    && HolesZero(line, f)
    && FlushesSeen(line, nCq, f)
  }

  /** With nothing but fsyncs and unlinks left in the line, the file is exactly what it should be. */
  lemma QuietFileComplete(line: seq<Slot>, nCq: nat, f: File)
    requires LineInv(line, nCq, f)
    requires forall i :: 0 <= i < |line| ==> !line[i].work.Write?
    ensures f.data == f.want
  {
    forall p: nat | p < |f.want|
      ensures p < |f.data| && f.data[p] == f.want[p]
    {
      assert LandedAt(f, p) || Claimed(line, p);
    }
    if f.want != [] {
      var last := |f.want| - 1;
      assert LandedAt(f, last) || Claimed(line, last);
    }
  }

  // ---- Append: a batch is ingested, or an fsync or unlink queued ----

  function Grown(f: File, recs: seq<Rec>, out: bytes): File {
    f.(recs := f.recs + recs, want := f.want + out)
  }

  lemma AppendWrite(line: seq<Slot>, nCq: nat, f: File, x: Slot, recs: seq<Rec>)
    requires LineInv(line, nCq, f)
    requires x.work.Write? && x.landed == 0 && x.work.done == 0
    requires x.work.batch.out != [] && x.work.offset == |f.want|
    ensures LineInv(line + [x], nCq, Grown(f, recs, x.work.batch.out))
  {
    var line', f' := line + [x], Grown(f, recs, x.work.batch.out);
    GrownKeeps(f, recs, x.work.batch.out);
    assert line'[|line|] == x;
    assert forall i :: 0 <= i < |line| ==> line'[i] == line[i];
    forall i | 0 <= i < |line'| ensures SlotOk(line'[i], f') {
      if i < |line| { assert SlotOk(line[i], f); }
    }
    forall p: nat | p < |f'.want| ensures LandedAt(f', p) || Claimed(line', p) {
      ClaimedGrows(line, x, p);
      if p < |f.want| {
        assert LandedAt(f, p) || Claimed(line, p);
      } else {
        assert Cov(line'[|line|], p);
      }
    }
    forall j, p: nat | 0 <= j < nCq && FlushDone(line'[j]) && p < |f'.want| ensures FlushCovers(line', f', j, p) {
      ClaimedGrows(line, x, p);
      if p < |f.want| {
        assert FlushCovers(line, f, j, p);
        if i :| j < i < |line| && Out(line[i], p) { assert Out(line'[i], p); }
      } else {
        assert Out(line'[|line|], p);
      }
    }
    forall i, j | 0 <= i < j < |line'| ensures Apart(line'[i], line'[j]) {
      if j == |line| { assert SlotOk(line[i], f); } else { assert Apart(line[i], line[j]); }
    }
    forall i, p | 0 <= i < |line'| && Cov(line'[i], p) && p < |f'.data| ensures f'.data[p] == 0 {
      if i < |line| { assert Cov(line[i], p); }
    }
  }

  lemma GrownKeeps(f: File, recs: seq<Rec>, out: bytes)
    requires FileOk(f)
    ensures FileOk(Grown(f, recs, out))
    ensures forall p: nat :: p < |f.want| ==>
              && (LandedAt(Grown(f, recs, out), p) <==> LandedAt(f, p))
              && (SyncedAt(Grown(f, recs, out), p) <==> SyncedAt(f, p))
  {
    var f' := Grown(f, recs, out);
    forall p: nat | p < |f'.want| && SyncedAt(f', p) ensures LandedAt(f', p) {
      assert p < |f.want|;
      assert SyncedAt(f, p);
      assert LandedAt(f, p);
    }
  }

  lemma ClaimedGrows(line: seq<Slot>, x: Slot, p: int)
    ensures Claimed(line, p) ==> Claimed(line + [x], p)
  {
    if i :| 0 <= i < |line| && Cov(line[i], p) {
      assert Cov((line + [x])[i], p);
    }
  }

  lemma AppendOther(line: seq<Slot>, nCq: nat, f: File, x: Slot)
    requires LineInv(line, nCq, f) && !x.work.Write?
    ensures LineInv(line + [x], nCq, f)
  {
    var line' := line + [x];
    assert line'[|line|] == x;
    assert forall i :: 0 <= i < |line| ==> line'[i] == line[i];
    forall p: nat | p < |f.want| ensures LandedAt(f, p) || Claimed(line', p) {
      ClaimedGrows(line, x, p);
      assert LandedAt(f, p) || Claimed(line, p);
    }
    forall j, p: nat | 0 <= j < nCq && FlushDone(line'[j]) && p < |f.want| ensures FlushCovers(line', f, j, p) {
      ClaimedGrows(line, x, p);
      assert FlushCovers(line, f, j, p);
      if i :| j < i < |line| && Out(line[i], p) { assert Out(line'[i], p); }
    }
    forall i, j | 0 <= i < j < |line'| ensures Apart(line'[i], line'[j]) {
      if j < |line| { assert Apart(line[i], line[j]); }
    }
    forall i, p | 0 <= i < |line'| && Cov(line'[i], p) && p < |f.data| ensures f.data[p] == 0 {
      assert Cov(line[i], p);
    }
  }

  // ---- Post: the kernel completes an operation, which moves up behind the completions already posted ----

  /** The operation at `m` moves to place `c`, becoming `x`. */
  function Moved(line: seq<Slot>, c: nat, m: nat, x: Slot): (r: seq<Slot>)
    requires c <= m < |line|
    ensures |r| == |line| && r[c] == x
    ensures forall i :: 0 <= i < |line| && i != m ==> r[Place(c, m, i)] == line[i]
    ensures forall i :: 0 <= i < |line| && i != c ==> r[i] == line[Origin(c, m, i)]
  {
    line[..c] + [x] + line[c..m] + line[m + 1..]
  }

  /** Where the operation at `i` ends up when the one at `m` moves to `c`. */
  function Place(c: nat, m: nat, i: int): int {
    if i == m then c else if c <= i < m then i + 1 else i
  }

  /** And where the operation found at `i` afterwards came from. */
  function Origin(c: nat, m: nat, i: int): int {
    if i == c then m else if c < i <= m then i - 1 else i
  }

  function Landing(f: File, w: Work, n: nat): File
    requires w.Write? && w.done + n <= |w.batch.out|
  {
    f.(data := WriteAt(f.data, w.offset + w.done, w.batch.out[w.done..w.done + n]))
  }

  /** Writing bytes the file should hold anyway only adds to what has landed. */
  lemma LandingKeeps(f: File, x: Slot, n: nat)
    requires FileOk(f) && SlotOk(x, f) && x.work.Write? && x.work.done + n <= |x.work.batch.out|
    ensures var f' := Landing(f, x.work, n);
            && FileOk(f')
            && (forall p: nat :: p < |f.want| && LandedAt(f, p) ==> LandedAt(f', p))
            && (forall p: nat :: p < |f.want| && x.work.offset + x.work.done <= p < x.work.offset + x.work.done + n ==>
              LandedAt(f', p))
  {
    var f' := Landing(f, x.work, n);
    forall p: nat | p < |f.want| && LandedAt(f, p)
      ensures LandedAt(f', p)
    {
      if x.work.offset + x.work.done <= p < x.work.offset + x.work.done + n { assert InRange(x, p); }
    }
    forall p: nat | p < |f.want| && x.work.offset + x.work.done <= p < x.work.offset + x.work.done + n
      ensures LandedAt(f', p)
    {
      assert InRange(x, p);
    }
    forall p: nat | p < |f'.want| && SyncedAt(f', p) ensures LandedAt(f', p) {
      assert SyncedAt(f, p);
    }
  }

  lemma MovedDisjoint(line: seq<Slot>, c: nat, m: nat, x: Slot)
    requires c <= m < |line| && Disjoint(line)
    requires x.work.Write? == line[m].work.Write?
    requires x.work.Write? ==> x.work.offset == line[m].work.offset && x.work.batch == line[m].work.batch
    ensures Disjoint(Moved(line, c, m, x))
  {
    hide Moved, WriteAt;
    var line' := Moved(line, c, m, x);
    hide Apart;
    forall i, j | 0 <= i < j < |line'| ensures Apart(line'[i], line'[j]) {
      MovedApart(line, c, m, x, i, j);
    }
  }

  lemma MovedApart(line: seq<Slot>, c: nat, m: nat, x: Slot, i: nat, j: nat)
    requires c <= m < |line| && Disjoint(line) && i < j < |line|
    requires x.work.Write? == line[m].work.Write?
    requires x.work.Write? ==> x.work.offset == line[m].work.offset && x.work.batch == line[m].work.batch
    ensures Apart(Moved(line, c, m, x)[i], Moved(line, c, m, x)[j])
  {
    var a, b := Origin(c, m, i), Origin(c, m, j);
    assert MovedFrom(line, c, m, x, i, a) && MovedFrom(line, c, m, x, j, b);
    assert if a < b then Apart(line[a], line[b]) else Apart(line[b], line[a]);
  }

  /** Place `i` of the edited line holds what was at `a`, or the moved operation. */
  ghost predicate MovedFrom(line: seq<Slot>, c: nat, m: nat, x: Slot, i: nat, a: int)
    requires c <= m < |line| && i < |line|
  {
    0 <= a < |line| && Moved(line, c, m, x)[i] == if a == m then x else line[a]
  }

  /** A posted write: coverage. */
  lemma PostWriteCovered(line: seq<Slot>, c: nat, f: File, m: nat, n: nat)
    requires LineInv(line, c, f) && c <= m < |line|
    requires line[m].work.Write? && line[m].work.done + n <= |line[m].work.batch.out|
    ensures var x := Slot(line[m].work, line[m].work.done + n);
            Covered(Moved(line, c, m, x), Landing(f, line[m].work, n))
  {
    hide Moved, WriteAt;
    var w := line[m].work;
    var x := Slot(w, w.done + n);
    var line', f' := Moved(line, c, m, x), Landing(f, w, n);
    assert SlotOk(line[m], f);
    LandingKeeps(f, line[m], n);
    forall p: nat | p < |f'.want| ensures LandedAt(f', p) || Claimed(line', p) {
      assert LandedAt(f, p) || Claimed(line, p);
      if !LandedAt(f, p) {
        var i :| 0 <= i < |line| && Cov(line[i], p);
        if i != m { assert Cov(line'[Place(c, m, i)], p); }
        else if w.offset + w.done + n <= p { assert Cov(line'[c], p); }
      }
    }
  }

  /** A posted write: what is still missing still reads as zero. */
  lemma PostWriteHoles(line: seq<Slot>, c: nat, f: File, m: nat, n: nat)
    requires LineInv(line, c, f) && c <= m < |line|
    requires line[m].work.Write? && line[m].work.done + n <= |line[m].work.batch.out|
    ensures var x := Slot(line[m].work, line[m].work.done + n);
            HolesZero(Moved(line, c, m, x), Landing(f, line[m].work, n))
  {
    hide Moved, WriteAt;
    var w := line[m].work;
    var x := Slot(w, w.done + n);
    var line', f' := Moved(line, c, m, x), Landing(f, w, n);
    assert SlotOk(line[m], f);
    forall i, p | 0 <= i < |line'| && Cov(line'[i], p) && p < |f'.data| ensures f'.data[p] == 0 {
      var a := Origin(c, m, i);
      if a == m {
        assert Cov(line[m], p);
      } else {
        assert Cov(line[a], p);
        assert if a < m then Apart(line[a], line[m]) else Apart(line[m], line[a]);
      }
    }
  }

  /** A posted write: the fsyncs already posted. */
  lemma PostWriteFlushes(line: seq<Slot>, c: nat, f: File, m: nat, n: nat)
    requires LineInv(line, c, f) && c <= m < |line|
    requires line[m].work.Write? && line[m].work.done + n <= |line[m].work.batch.out|
    ensures var x := Slot(line[m].work, line[m].work.done + n);
            FlushesSeen(Moved(line, c, m, x), c + 1, Landing(f, line[m].work, n))
  {
    hide Moved, WriteAt;
    var w := line[m].work;
    var x := Slot(w, w.done + n);
    var line', f' := Moved(line, c, m, x), Landing(f, w, n);
    forall j, p: nat | 0 <= j < c + 1 && FlushDone(line'[j]) && p < |f'.want| ensures FlushCovers(line', f', j, p) {
      assert Place(c, m, j) == j || j == c;
      assert FlushCovers(line, f, j, p);
      assert SyncedAt(f, p) ==> SyncedAt(f', p);
      if i :| 0 <= i < |line| && Cov(line[i], p) {
        if i == m { assert Out(line'[c], p); } else { assert Cov(line'[Place(c, m, i)], p); }
      } else if i :| j < i < |line| && Out(line[i], p) {
        assert Out(line'[Place(c, m, i)], p);
      }
    }
  }

  /** The kernel writes the next `n` bytes of the batch at `m` and posts the completion. */
  lemma PostWrite(line: seq<Slot>, c: nat, f: File, m: nat, n: nat)
    requires LineInv(line, c, f) && c <= m < |line|
    requires line[m].work.Write? && line[m].work.done + n <= |line[m].work.batch.out|
    ensures var x := Slot(line[m].work, line[m].work.done + n);
            LineInv(Moved(line, c, m, x), c + 1, Landing(f, line[m].work, n))
  {
    hide Moved, WriteAt;
    var w := line[m].work;
    var x := Slot(w, w.done + n);
    var line', f' := Moved(line, c, m, x), Landing(f, w, n);
    assert SlotOk(line[m], f);
    LandingKeeps(f, line[m], n);
    MovedDisjoint(line, c, m, x);
    PostWriteCovered(line, c, f, m, n);
    PostWriteHoles(line, c, f, m, n);
    PostWriteFlushes(line, c, f, m, n);
    PostWriteSlots(line, c, f, m, n);
    hide SlotsOk, Covered, HolesZero, FlushesSeen, Disjoint, FileOk, Landing;
  }

  /** A posted write: the slots themselves. */
  lemma PostWriteSlots(line: seq<Slot>, c: nat, f: File, m: nat, n: nat)
    requires SlotsOk(line, c, f) && c <= m < |line|
    requires line[m].work.Write? && line[m].work.done + n <= |line[m].work.batch.out|
    ensures var x := Slot(line[m].work, line[m].work.done + n);
            SlotsOk(Moved(line, c, m, x), c + 1, Landing(f, line[m].work, n))
  {
    hide Moved, WriteAt, SlotOk;
    var w := line[m].work;
    var x := Slot(w, w.done + n);
    var line', f' := Moved(line, c, m, x), Landing(f, w, n);
    forall i | 0 <= i < |line'|
      ensures SlotOk(line'[i], f')
      ensures c + 1 <= i && line'[i].work.Write? ==> line'[i].landed == line'[i].work.done
    {
      var a := Origin(c, m, i);
      if a == m { SlotAdvanced(line[m], n, f, f'); } else { SlotSame(line[a], f, f'); }
    }
  }

  lemma SlotSame(x: Slot, f: File, f': File)
    requires SlotOk(x, f) && f'.want == f.want
    ensures SlotOk(x, f')
  {
  }

  lemma SlotAdvanced(y: Slot, n: nat, f: File, f': File)
    requires SlotOk(y, f) && f'.want == f.want && y.work.Write? && y.work.done + n <= |y.work.batch.out|
    ensures SlotOk(Slot(y.work, y.work.done + n), f')
  {
    var x := Slot(y.work, y.work.done + n);
    assert forall p :: InRange(x, p) ==> InRange(y, p);
  }

  function SyncedNow(f: File): File { f.(synced := f.data) }

  /** A drained fsync runs when nothing is ahead of it: everything that has landed becomes durable. */
  lemma PostFlush(line: seq<Slot>, c: nat, f: File)
    requires LineInv(line, c, f) && c < |line| && line[c].work.Fsync?
    ensures LineInv(line, c + 1, SyncedNow(f))
  {
    var f' := SyncedNow(f);
    forall p: nat | p < |f.want|
      ensures SyncedAt(f', p) <==> LandedAt(f, p)
      ensures LandedAt(f', p) <==> LandedAt(f, p)
    {
    }
    forall i | 0 <= i < |line| ensures SlotOk(line[i], f') {
      assert SlotOk(line[i], f);
    }
    forall j, p: nat | 0 <= j < c + 1 && FlushDone(line[j]) && p < |f'.want| ensures FlushCovers(line, f', j, p) {
      assert LandedAt(f, p) || Claimed(line, p);
    }
    forall p: nat | p < |f'.want| ensures LandedAt(f', p) || Claimed(line, p) {
      assert LandedAt(f, p) || Claimed(line, p);
    }
  }

  /** A failed fsync is marked in its place, and promises nothing. */
  lemma PostFailed(line: seq<Slot>, c: nat, f: File, x: Slot)
    requires LineInv(line, c, f) && c < |line| && line[c].work.Fsync? && x.work == line[c].work && x.landed != 0
    ensures LineInv(line[c := x], c + 1, f)
  {
    var line' := line[c := x];
    forall i | 0 <= i < |line'| ensures SlotOk(line'[i], f) { assert SlotOk(line[i], f); }
    forall p: nat | p < |f.want| ensures LandedAt(f, p) || Claimed(line', p) {
      assert LandedAt(f, p) || Claimed(line, p);
      ClaimedMarked(line, c, x, p);
    }
    forall j, p: nat | 0 <= j < c + 1 && FlushDone(line'[j]) && p < |f.want| ensures FlushCovers(line', f, j, p) {
      assert FlushCovers(line, f, j, p);
      ClaimedMarked(line, c, x, p);
      if i :| j < i < |line| && Out(line[i], p) { assert Out(line'[i], p); }
    }
    forall i, j | 0 <= i < j < |line'| ensures Apart(line'[i], line'[j]) { assert Apart(line[i], line[j]); }
    forall i, p | 0 <= i < |line'| && Cov(line'[i], p) && p < |f.data| ensures f.data[p] == 0 {
      assert Cov(line[i], p);
    }
  }

  lemma ClaimedMarked(line: seq<Slot>, c: nat, x: Slot, p: int)
    requires c < |line| && line[c].work.Fsync? && x.work == line[c].work
    ensures Claimed(line, p) ==> Claimed(line[c := x], p)
  {
    if i :| 0 <= i < |line| && Cov(line[i], p) { assert Cov(line[c := x][i], p); }
  }

  /** An operation that touches no file content completes. */
  lemma PostOther(line: seq<Slot>, c: nat, f: File, m: nat)
    requires LineInv(line, c, f) && c <= m < |line| && line[m].work.Remove?
    ensures LineInv(Moved(line, c, m, line[m]), c + 1, f)
  {
    hide Moved, WriteAt, Covered, FlushesSeen;
    var line' := Moved(line, c, m, line[m]);
    MovedDisjoint(line, c, m, line[m]);
    PostOtherCovered(line, c, f, m);
    PostOtherFlushes(line, c, f, m);
    forall i | 0 <= i < |line'|
      ensures SlotOk(line'[i], f)
      ensures c + 1 <= i && line'[i].work.Write? ==> line'[i].landed == line'[i].work.done
      ensures forall p :: Cov(line'[i], p) && p < |f.data| ==> f.data[p] == 0
    {
      var a := Origin(c, m, i);
      assert SlotOk(line[a], f);
    }
  }

  lemma PostOtherCovered(line: seq<Slot>, c: nat, f: File, m: nat)
    requires Covered(line, f) && c <= m < |line|
    ensures Covered(Moved(line, c, m, line[m]), f)
  {
    hide Moved;
    var line' := Moved(line, c, m, line[m]);
    forall p: nat | p < |f.want| ensures LandedAt(f, p) || Claimed(line', p) {
      assert LandedAt(f, p) || Claimed(line, p);
      if i :| 0 <= i < |line| && Cov(line[i], p) { assert Cov(line'[Place(c, m, i)], p); }
    }
  }

  lemma PostOtherFlushes(line: seq<Slot>, c: nat, f: File, m: nat)
    requires c <= m < |line| && FlushesSeen(line, c, f) && line[m].work.Remove?
    ensures FlushesSeen(Moved(line, c, m, line[m]), c + 1, f)
  {
    hide Moved;
    var line' := Moved(line, c, m, line[m]);
    forall j, p: nat | 0 <= j < c + 1 && FlushDone(line'[j]) && p < |f.want| ensures FlushCovers(line', f, j, p) {
      assert Place(c, m, j) == j || j == c;
      assert FlushCovers(line, f, j, p);
      if i :| 0 <= i < |line| && Cov(line[i], p) {
        assert Cov(line'[Place(c, m, i)], p);
      } else if i :| j < i < |line| && Out(line[i], p) {
        assert Out(line'[Place(c, m, i)], p);
      }
    }
  }

  // ---- Reap: the head leaves the line ----

  /** A completion that leaves nothing of its operation outstanding is reaped. */
  lemma TakeHead(line: seq<Slot>, nCq: nat, f: File)
    requires LineInv(line, nCq, f) && nCq > 0
    requires line[0].work.Write? ==> line[0].landed == |line[0].work.batch.out|
    ensures LineInv(line[1..], nCq - 1, f)
  {
    var line' := line[1..];
    assert forall i :: 0 <= i < |line'| ==> line'[i] == line[i + 1];
    forall i | 0 <= i < |line'| ensures SlotOk(line'[i], f) {
      assert SlotOk(line[i + 1], f);
    }
    forall p: nat | p < |f.want| ensures LandedAt(f, p) || Claimed(line', p) {
      assert LandedAt(f, p) || Claimed(line, p);
      if i :| 0 <= i < |line| && Cov(line[i], p) { assert Cov(line'[i - 1], p); }
    }
    forall j, p: nat | 0 <= j < nCq - 1 && FlushDone(line'[j]) && p < |f.want| ensures FlushCovers(line', f, j, p) {
      assert FlushCovers(line, f, j + 1, p);
      if i :| 0 <= i < |line| && Cov(line[i], p) {
        assert Cov(line'[i - 1], p);
      } else if i :| j + 1 < i < |line| && Out(line[i], p) {
        assert Out(line'[i - 1], p);
      }
    }
    forall i, j | 0 <= i < j < |line'| ensures Apart(line'[i], line'[j]) {
      assert Apart(line[i + 1], line[j + 1]);
    }
    forall i, p | 0 <= i < |line'| && Cov(line'[i], p) && p < |f.data| ensures f.data[p] == 0 {
      assert Cov(line[i + 1], p);
    }
  }

  /** The head re-enters at `q`, in front of everything not yet submitted, resuming at its first unwritten byte. */
  function Requeued(line: seq<Slot>, q: nat): (r: seq<Slot>)
    requires 0 <= q < |line| && line[0].work.Write?
    ensures |r| == |line| && r[q] == Resumed(line[0])
    ensures forall i :: 0 < i < |line| ==> r[Back(q, i)] == line[i]
    ensures forall i :: 0 <= i < |line| && i != q ==> r[i] == line[Fore(q, i)]
  {
    line[1..q + 1] + [Resumed(line[0])] + line[q + 1..]
  }

  function Resumed(x: Slot): Slot
    requires x.work.Write?
  {
    x.(work := x.work.(done := x.landed))
  }

  /** Where the operation at `i` goes when the head re-enters at `q`, and where it came from. */
  function Back(q: nat, i: int): int {
    if i == 0 then q else if i <= q then i - 1 else i
  }

  function Fore(q: nat, i: int): int {
    if i == q then 0 else if i < q then i + 1 else i
  }

  lemma ClaimedRequeued(line: seq<Slot>, q: nat, p: int)
    requires 0 <= q < |line| && line[0].work.Write? && Claimed(line, p)
    ensures Claimed(Requeued(line, q), p)
  {
    hide Requeued;
    var i :| 0 <= i < |line| && Cov(line[i], p);
    assert Cov(Requeued(line, q)[Back(q, i)], p);
  }

  lemma RequeueFlushes(line: seq<Slot>, nCq: nat, f: File, q: nat)
    requires 0 < nCq <= q + 1 <= |line| && line[0].work.Write? && FlushesSeen(line, nCq, f)
    ensures FlushesSeen(Requeued(line, q), nCq - 1, f)
  {
    hide Requeued, Claimed;
    var line' := Requeued(line, q);
    forall j, p: nat | 0 <= j < nCq - 1 && FlushDone(line'[j]) && p < |f.want| ensures FlushCovers(line', f, j, p) {
      assert line'[j] == line[j + 1];
      assert FlushCovers(line, f, j + 1, p);
      if Claimed(line, p) {
        ClaimedRequeued(line, q, p);
      } else if i :| j + 1 < i < |line| && Out(line[i], p) {
        assert Out(line'[Back(q, i)], p);
      }
    }
  }

  lemma RequeueDisjoint(line: seq<Slot>, q: nat)
    requires Disjoint(line) && 0 <= q < |line| && line[0].work.Write?
    ensures Disjoint(Requeued(line, q))
  {
    hide Requeued;
    var line' := Requeued(line, q);
    forall i, j | 0 <= i < j < |line'| ensures Apart(line'[i], line'[j]) {
      var a, b := Fore(q, i), Fore(q, j);
      assert a < b ==> Apart(line[a], line[b]);
      assert b < a ==> Apart(line[b], line[a]);
    }
  }

  lemma RequeueHead(line: seq<Slot>, nCq: nat, f: File, q: nat)
    requires LineInv(line, nCq, f) && 0 < nCq <= q + 1 <= |line|
    requires line[0].work.Write? && line[0].landed < |line[0].work.batch.out|
    ensures LineInv(Requeued(line, q), nCq - 1, f)
  {
    hide Requeued;
    var line' := Requeued(line, q);
    forall i | 0 <= i < |line'|
      ensures SlotOk(line'[i], f)
      ensures nCq - 1 <= i && line'[i].work.Write? ==> line'[i].landed == line'[i].work.done
      ensures forall p :: Cov(line'[i], p) && p < |f.data| ==> f.data[p] == 0
    {
      var a := Fore(q, i);
      assert SlotOk(line[a], f);
      if a == 0 {
        assert forall p :: (InRange(line'[q], p) <==> InRange(line[0], p)) && (Cov(line'[q], p) <==> Cov(line[0], p));
      }
    }
    forall p: nat | p < |f.want| ensures LandedAt(f, p) || Claimed(line', p) {
      assert LandedAt(f, p) || Claimed(line, p);
      if Claimed(line, p) { ClaimedRequeued(line, q, p); }
    }
    RequeueFlushes(line, nCq, f, q);
    RequeueDisjoint(line, q);
  }
}
