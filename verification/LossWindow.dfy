/**
 The loss window (crates/server/src/stage3/fsync_planner.rs): bytes of the active segment that no
 completed fsync has made durable and no armed fsync is ordered behind never outnumber the planner's
 `dirty_bytes`, although retries count bytes again.
 */
module LossWindow {
  import opened WalFormat
  import opened IoLine

  ghost predicate AllBefore(line: seq<Slot>, p: int, j: int) {
    forall i :: 0 <= i < |line| && Out(line[i], p) ==> i < j
  }

  /** Some fsync in the line is ordered behind every outstanding write of `p`. */
  ghost predicate Guarded(line: seq<Slot>, p: int) {
    exists j :: 0 <= j < |line| && line[j].work.Fsync? && AllBefore(line, p, j)
  }

  ghost predicate Exposed(line: seq<Slot>, f: File, p: nat)
    requires p < |f.want|
  {
    !SyncedAt(f, p) && !Guarded(line, p)
  }

  ghost function ExposedSet(line: seq<Slot>, f: File): set<nat> {
    set p: nat | p < |f.want| && Exposed(line, f, p)
  }

  ghost predicate WindowInv(line: seq<Slot>, f: File, dirty: nat) {
    |ExposedSet(line, f)| <= dirty
  }

  function Span(a: nat, b: nat): (s: set<nat>)
    requires a <= b
    ensures |s| == b - a
    ensures forall p: nat :: p in s <==> a <= p < b
    decreases b
  {
    if a == b then {} else Span(a, b - 1) + {b - 1}
  }

  lemma SubsetSize(a: set<nat>, b: set<nat>)
    requires a <= b
    ensures |a| <= |b|
  {
    assert b == a + (b - a);
  }

  lemma Grow(a: set<nat>, b: set<nat>, lo: nat, hi: nat)
    requires lo <= hi && forall p: nat :: p in a ==> p in b || lo <= p < hi
    ensures |a| <= |b| + (hi - lo)
  {
    var s := Span(lo, hi);
    assert a <= b + s;
    SubsetSize(a, b + s);
    assert |b + s| <= |b| + |s| by { assert b + s == b + (s - b); SubsetSize(s - b, s); }
  }

  lemma GuardedAppend(line: seq<Slot>, x: Slot, p: int)
    requires !Out(x, p) && Guarded(line, p)
    ensures Guarded(line + [x], p)
  {
    var j :| 0 <= j < |line| && line[j].work.Fsync? && AllBefore(line, p, j);
    var line' := line + [x];
    assert line'[j].work.Fsync?;
    forall i | 0 <= i < |line'| && Out(line'[i], p) ensures i < j {
      assert i < |line| && Out(line[i], p);
    }
  }

  /** A batch enters the line: only its own bytes can become exposed, and `dirty_bytes` grows by as many. */
  lemma WindowWrite(line: seq<Slot>, nCq: nat, f: File, dirty: nat, x: Slot, recs: seq<Rec>)
    requires LineInv(line, nCq, f) && WindowInv(line, f, dirty)
    requires x.work.Write? && x.work.done == 0 && x.work.offset == |f.want|
    ensures WindowInv(line + [x], Grown(f, recs, x.work.batch.out), dirty + |x.work.batch.out|)
  {
    var line', f' := line + [x], Grown(f, recs, x.work.batch.out);
    GrownKeeps(f, recs, x.work.batch.out);
    forall p: nat | p in ExposedSet(line', f') && p < |f.want|
      ensures p in ExposedSet(line, f)
    {
      if Guarded(line, p) { GuardedAppend(line, x, p); }
    }
    Grow(ExposedSet(line', f'), ExposedSet(line, f), |f.want|, |f'.want|);
  }

  /** An fsync enters the line behind everything: nothing is exposed any more. */
  lemma WindowArm(line: seq<Slot>, f: File, x: Slot)
    requires x.work.Fsync?
    ensures WindowInv(line + [x], f, 0)
  {
    var line' := line + [x];
    forall p: nat | p < |f.want| ensures Guarded(line', p) {
      assert line'[|line|].work.Fsync?;
      assert AllBefore(line', p, |line|);
    }
    assert ExposedSet(line', f) == {};
  }

  lemma WindowRemove(line: seq<Slot>, f: File, dirty: nat, x: Slot)
    requires WindowInv(line, f, dirty) && x.work.Remove?
    ensures WindowInv(line + [x], f, dirty)
  {
    forall p: nat | p in ExposedSet(line + [x], f) ensures p in ExposedSet(line, f) {
      if Guarded(line, p) { GuardedAppend(line, x, p); }
    }
    SubsetSize(ExposedSet(line + [x], f), ExposedSet(line, f));
  }

  lemma GuardedMoved(line: seq<Slot>, c: nat, m: nat, x: Slot, p: int)
    requires c <= m < |line| && !line[m].work.Fsync? && Guarded(line, p)
    requires Out(x, p) ==> Out(line[m], p)
    ensures Guarded(Moved(line, c, m, x), p)
  {
    hide Moved;
    var j :| 0 <= j < |line| && line[j].work.Fsync? && AllBefore(line, p, j);
    var line' := Moved(line, c, m, x);
    var j' := Place(c, m, j);
    assert line'[j'] == line[j];
    forall i | 0 <= i < |line'| && Out(line'[i], p) ensures i < j' {
      var a := Origin(c, m, i);
      assert Out(line[a], p);
    }
    assert AllBefore(line', p, j');
  }

  /** The kernel completing a write or an unlink exposes nothing. */
  /** An fsync found to have failed still stands in the line until it is reaped. */
  lemma WindowMarked(line: seq<Slot>, f: File, dirty: nat, c: nat, x: Slot)
    requires c < |line| && x.work == line[c].work && !x.work.Write? && WindowInv(line, f, dirty)
    ensures WindowInv(line[c := x], f, dirty)
  {
    var line' := line[c := x];
    forall p: nat | p in ExposedSet(line', f) ensures p in ExposedSet(line, f) { GuardedMarked(line, c, x, p); }
    SubsetSize(ExposedSet(line', f), ExposedSet(line, f));
  }

  lemma GuardedMarked(line: seq<Slot>, c: nat, x: Slot, p: int)
    requires c < |line| && x.work == line[c].work && !x.work.Write?
    ensures Guarded(line, p) ==> Guarded(line[c := x], p)
  {
    if j :| 0 <= j < |line| && line[j].work.Fsync? && AllBefore(line, p, j) {
      assert line[c := x][j].work.Fsync? && AllBefore(line[c := x], p, j);
    }
  }

  lemma WindowPost(line: seq<Slot>, c: nat, f: File, f': File, dirty: nat, m: nat, x: Slot)
    requires c <= m < |line| && !line[m].work.Fsync? && WindowInv(line, f, dirty)
    requires x.work == line[m].work
    requires f'.want == f.want && f'.synced == f.synced
    ensures WindowInv(Moved(line, c, m, x), f', dirty)
  {
    hide Moved;
    var line' := Moved(line, c, m, x);
    forall p: nat | p in ExposedSet(line', f') ensures p in ExposedSet(line, f) {
      assert SyncedAt(f, p) <==> SyncedAt(f', p);
      if Guarded(line, p) { GuardedMoved(line, c, m, x, p); }
    }
    SubsetSize(ExposedSet(line', f'), ExposedSet(line, f));
  }

  lemma WindowFlush(line: seq<Slot>, nCq: nat, f: File, dirty: nat)
    requires LineInv(line, nCq, f) && WindowInv(line, f, dirty)
    ensures WindowInv(line, SyncedNow(f), dirty)
  {
    var f' := SyncedNow(f);
    forall p: nat | p in ExposedSet(line, f') ensures p in ExposedSet(line, f) {
      if SyncedAt(f, p) { assert LandedAt(f, p); assert SyncedAt(f', p); }
    }
    SubsetSize(ExposedSet(line, f'), ExposedSet(line, f));
  }

  lemma GuardedTaken(line: seq<Slot>, nCq: nat, f: File, p: nat)
    requires LineInv(line, nCq, f) && nCq > 0 && p < |f.want| && Guarded(line, p)
    requires line[0].work.Fsync? ==> FlushDone(line[0])
    ensures SyncedAt(f, p) || Guarded(line[1..], p)
  {
    var line' := line[1..];
    var j :| 0 <= j < |line| && line[j].work.Fsync? && AllBefore(line, p, j);
    if j == 0 {
      assert FlushCovers(line, f, 0, p);
      assert forall i :: 0 <= i < |line| ==> SlotOk(line[i], f);
    } else {
      assert line'[j - 1].work.Fsync?;
      forall i | 0 <= i < |line'| && Out(line'[i], p) ensures i < j - 1 {
        assert Out(line[i + 1], p);
      }
      assert AllBefore(line', p, j - 1);
    }
  }

  /** Reaping a completion exposes nothing: bytes only the reaped fsync was ordered behind are durable by now. */
  lemma WindowTake(line: seq<Slot>, nCq: nat, f: File, dirty: nat)
    requires LineInv(line, nCq, f) && nCq > 0 && WindowInv(line, f, dirty)
    requires line[0].work.Fsync? ==> FlushDone(line[0])
    ensures WindowInv(line[1..], f, dirty)
  {
    forall p: nat | p in ExposedSet(line[1..], f) ensures p in ExposedSet(line, f) {
      if Guarded(line, p) { GuardedTaken(line, nCq, f, p); }
    }
    SubsetSize(ExposedSet(line[1..], f), ExposedSet(line, f));
  }

  lemma GuardedRequeued(line: seq<Slot>, q: nat, p: int)
    requires 0 <= q < |line| && line[0].work.Write? && Guarded(line, p) && !Out(Resumed(line[0]), p)
    ensures Guarded(Requeued(line, q), p)
  {
    hide Requeued;
    var line' := Requeued(line, q);
    var j :| 0 <= j < |line| && line[j].work.Fsync? && AllBefore(line, p, j);
    var j' := Back(q, j);
    assert line'[j'] == line[j];
    forall i | 0 <= i < |line'| && Out(line'[i], p) ensures i < j' {
      assert Out(line[Fore(q, i)], p);
    }
    assert AllBefore(line', p, j');
  }

  /** A retried write can expose only its remaining bytes, which `dirty_bytes` counts again. */
  lemma WindowRequeue(line: seq<Slot>, nCq: nat, f: File, dirty: nat, q: nat)
    requires LineInv(line, nCq, f) && WindowInv(line, f, dirty)
    requires 0 <= q < |line| && line[0].work.Write?
    ensures WindowInv(Requeued(line, q), f, dirty + (|line[0].work.batch.out| - line[0].landed))
  {
    hide Requeued;
    var line' := Requeued(line, q);
    var x := line[0];
    assert SlotOk(x, f);
    var lo, hi := x.work.offset + x.landed, x.work.offset + |x.work.batch.out|;
    forall p: nat | p in ExposedSet(line', f) && !(lo <= p < hi) ensures p in ExposedSet(line, f) {
      if Guarded(line, p) { GuardedRequeued(line, q, p); }
    }
    Grow(ExposedSet(line', f), ExposedSet(line, f), lo, hi);
  }
}
