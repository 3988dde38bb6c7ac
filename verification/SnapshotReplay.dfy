/**
 Snapshot plus log (crates/storage/src/lib.rs, crates/storage/src/snapshot.rs): when loading a
 snapshot and replaying only the newer records gives what replaying everything would.
 */
module SnapshotReplay {
  import opened Bytes
  import opened Wire
  import opened WalFormat
  import opened Recovery

  ghost predicate Increasing(recs: seq<Rec>) {
    forall i, j :: 0 <= i < j < |recs| ==> recs[i].lsn < recs[j].lsn
  }

  /** The map after applying the PUTs of a log in order. */
  function PutAll(db: Kv, recs: seq<Rec>): Kv
    requires AllLoggable(recs)
    decreases |recs|
  {
    if recs == [] then db else PutAll(ApplyPut(db, recs[0].body), recs[1..])
  }

  lemma PutNone(db: Kv)
    ensures AllLoggable([]) && PutAll(db, []) == db
  {
  }

  lemma {:induction false} PutAllAppend(db: Kv, a: seq<Rec>, b: seq<Rec>)
    requires AllLoggable(a) && AllLoggable(b)
    ensures PutAll(db, a + b) == PutAll(PutAll(db, a), b)
    decreases |a|
  {
    hide Fits, IsPut, ApplyPut;
    if a == [] {
      assert a + b == b;
    } else {
      assert Loggable(a[0]);
      PutAllAppend(ApplyPut(db, a[0].body), a[1..], b);
      assert (a + b)[1..] == a[1..] + b && (a + b)[0] == a[0];
    }
  }

  /** The last value a log writes to a key. */
  function LastWrite(recs: seq<Rec>, k: bytes): Option<bytes>
    requires AllLoggable(recs)
  {
    if recs == [] then None else
    var later := LastWrite(recs[1..], k);
    if later.Some? then later else
    if KeyOf(recs[0].body) == k then Some(SplitKv(recs[0].body).1) else None
  }

  lemma {:induction false} PutAllLookup(db: Kv, recs: seq<Rec>, k: bytes)
    requires AllLoggable(recs)
    ensures var m, w := PutAll(db, recs), LastWrite(recs, k);
            && (w.Some? ==> k in m && m[k] == w.value)
            && (w.None? ==> (k in m <==> k in db) && (k in db ==> m[k] == db[k]))
    decreases |recs|
  {
    hide Fits;
    if recs == [] {
    } else {
      PutAllLookup(ApplyPut(db, recs[0].body), recs[1..], k);
    }
  }

  /** Replaying a log over its own outcome changes nothing. */
  lemma ReplayTwice(db: Kv, recs: seq<Rec>)
    requires AllLoggable(recs)
    ensures PutAll(PutAll(db, recs), recs) == PutAll(db, recs)
  {
    hide PutAll, LastWrite;
    var once, twice := PutAll(db, recs), PutAll(PutAll(db, recs), recs);
    forall k: bytes
      ensures (k in once <==> k in twice) && (k in once ==> once[k] == twice[k])
    {
      PutAllLookup(db, recs, k);
      PutAllLookup(once, recs, k);
    }
  }

  /** Records at or below the snapshot's snapLsn are skipped; those above it are applied and raise the watermark. */
  lemma {:induction false} AbsorbAbove(recs: seq<Rec>, snapLsn: nat, at: Progress)
    requires AllLoggable(recs) && Increasing(recs)
    requires forall i :: 0 <= i < |recs| ==> recs[i].lsn > snapLsn
    requires |recs| > 0 ==> recs[0].lsn > at.highest
    ensures Absorb(recs, snapLsn, at)
         == Progress(PutAll(at.db, recs), if recs == [] then at.highest else recs[|recs| - 1].lsn)
  {
    if recs == [] {
    } else {
      assert Loggable(recs[0]);
      hide Fits, ApplyPut;
      AbsorbAbove(recs[1..], snapLsn, ReplayOne(snapLsn, at, recs[0]).value);
    }
  }

  lemma {:induction false} AbsorbBelow(recs: seq<Rec>, snapLsn: nat, at: Progress)
    requires AllLoggable(recs) && forall i :: 0 <= i < |recs| ==> recs[i].lsn <= snapLsn
    ensures Absorb(recs, snapLsn, at) == at
  {
    if recs == [] {
    } else {
      AbsorbBelow(recs[1..], snapLsn, at);
    }
  }

  /** The map part: over the snapshot, the records between `l` and `m` are applied a second time. */
  lemma SnapshotMap(history: seq<Rec>, l: nat, m: nat)
    requires AllLoggable(history) && l <= m <= |history|
    ensures PutAll(PutAll(map[], history[..m]), history[l..]) == PutAll(map[], history)
  {
    hide Loggable, PutAll;
    var below, mid, above := history[..l], history[l..m], history[m..];
    assert history[..m] == below + mid && history[l..] == mid + above && history == history[..m] + above;
    PutAllAppend(map[], below, mid);
    PutAllAppend(PutAll(map[], history[..m]), mid, above);
    PutAllAppend(map[], history[..m], above);
    ReplayTwice(PutAll(map[], below), mid);
  }

  /**
   Snapshot equivalence. `history` is a log whose first `l` records lie at or below `snapLsn`; the snapshot
   holds the map after its first `m >= l` records; the segments still on disk hold `history` from any
   record `kept <= l` on (older ones may have been retired). Recovery then rebuilds exactly the map a
   full replay from empty gives, and resumes above every LSN of the history.
   */
  lemma SnapshotEquivalence(history: seq<Rec>, kept: nat, l: nat, m: nat, snapLsn: nat)
    requires AllLoggable(history) && Increasing(history)
    requires kept <= l <= m <= |history|
    requires forall i :: 0 <= i < l ==> history[i].lsn <= snapLsn
    requires forall i :: l <= i < |history| ==> history[i].lsn > snapLsn
    ensures var at := Absorb(history[kept..], snapLsn, Progress(PutAll(map[], history[..m]), snapLsn));
            && at.db == PutAll(map[], history)
            && forall i :: 0 <= i < |history| ==> history[i].lsn < at.highest + 1
  {
    hide Loggable, Absorb, PutAll;
    var start := Progress(PutAll(map[], history[..m]), snapLsn);
    assert history[kept..] == history[kept..l] + history[l..];
    AbsorbAppend(history[kept..l], history[l..], snapLsn, start);
    AbsorbBelow(history[kept..l], snapLsn, start);
    AbsorbAbove(history[l..], snapLsn, start);
    SnapshotMap(history, l, m);
  }
}
