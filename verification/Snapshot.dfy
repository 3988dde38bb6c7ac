/** The snapshot codec (crates/storage/src/snapshot.rs): `load` and the serialisation loop. */
module Snapshot {
  import opened Bytes
  import opened Wire

  const MAGIC: nat := 0x50414e53  // "SNAP", little-endian

  datatype LoadResult = Invalid | Loaded(lsn: nat, db: Kv) | LoadPanics

  /** `n` entries starting at `p`; a missing key length ends the loop, any other overrun panics. */
  function LoadEntries(b: bytes, p: nat, n: nat, db: Kv): Option<Kv>
    requires p <= |b|
    decreases n
  {
    if n == 0 || p + 4 > |b| then Some(db) else
    var keyEnd := p + 4 + UnLE(b[p..p + 4]);
    if keyEnd + 4 > |b| then None else
    var valEnd := keyEnd + 4 + UnLE(b[keyEnd..keyEnd + 4]);
    if valEnd > |b| then None else
    LoadEntries(b, valEnd, n - 1, db[b[p + 4..keyEnd] := b[keyEnd + 4..valEnd]])
  }

  function Load(b: bytes): LoadResult {
    if |b| < 20 || UnLE(b[0..4]) != MAGIC then Invalid else
    match LoadEntries(b, 20, UnLE(b[12..20]), map[])
    case None => LoadPanics
    case Some(db) => Loaded(UnLE(b[4..12]), db)
  }

  method LoadFile(b: bytes) returns (r: LoadResult)
    ensures r == Load(b)
  {
    if |b| < 20 || UnLE(b[0..4]) != MAGIC {
      return Invalid;
    }
    var lsn := UnLE(b[4..12]);
    var len := UnLE(b[12..20]);
    var db: Kv := map[];
    var p: nat := 20;
    ghost var goal := LoadEntries(b, p, len, db);
    var i: nat := 0;
    while i < len
      invariant 0 <= i <= len && p <= |b|
      invariant goal == LoadEntries(b, p, len - i, db)
    {
      if p + 4 > |b| {
        break;
      }
      var keyLen := UnLE(b[p..p + 4]);
      p := p + 4;
      if p + keyLen > |b| {
        return LoadPanics;
      }
      var key := b[p..p + keyLen];
      p := p + keyLen;
      if p + 4 > |b| {
        return LoadPanics;
      }
      var valLen := UnLE(b[p..p + 4]);
      p := p + 4;
      if p + valLen > |b| {
        return LoadPanics;
      }
      var val := b[p..p + valLen];
      p := p + valLen;
      db := db[key := val];
      i := i + 1;
    }
    r := Loaded(lsn, db);
  }

  // ---- Serialisation ----

  datatype Entry = Entry(key: bytes, val: bytes)

  function EncodeEntry(e: Entry): bytes {
    LE(|e.key|, 4) + e.key + LE(|e.val|, 4) + e.val
  }

  function EncodeEntries(es: seq<Entry>): bytes {
    if es == [] then [] else EncodeEntry(es[0]) + EncodeEntries(es[1..])
  }

  function EncodeSnapshot(lsn: nat, es: seq<Entry>): bytes {
    LE(MAGIC, 4) + LE(lsn, 8) + LE(|es|, 8) + EncodeEntries(es)
  }

  /** `es` walks the whole map once, in whatever order the hash map yields. */
  ghost predicate Walks(es: seq<Entry>, db: Kv) {
    && (forall i :: 0 <= i < |es| ==> es[i].key in db && db[es[i].key] == es[i].val)
    && (forall i, j :: 0 <= i < j < |es| ==> es[i].key != es[j].key)
    && (forall k :: k in db ==> exists i :: 0 <= i < |es| && es[i].key == k)
  }

  predicate EntriesFit(es: seq<Entry>) {
    forall i :: 0 <= i < |es| ==> |es[i].key| < U32 && |es[i].val| < U32
  }

  /** `Snapshotter` with the cooldown of `write_snapshot_sync_TEMP_FUNC`; the file system is the returned bytes. */
  class Snapshotter {
    var lastBoundaryLsn: nat
    const minLsnGap: nat

    constructor (startLsn: nat, minLsnGap: nat)
      ensures lastBoundaryLsn == startLsn && this.minLsnGap == minLsnGap
    {
      lastBoundaryLsn := startLsn;
      this.minLsnGap := minLsnGap;
    }

    /** Nothing is written inside the cooldown; otherwise the file loads back to this very map and label. */
    method Write(walk: seq<Entry>, ghost db: Kv, lsn: nat) returns (file: Option<bytes>)
      requires Walks(walk, db) && EntriesFit(walk) && |walk| < U64
      requires lastBoundaryLsn <= lsn < U64
      modifies this
      ensures file.Some? <==> lsn - old(lastBoundaryLsn) > minLsnGap
      ensures file.Some? ==> Load(file.value) == Loaded(lsn, db) && lastBoundaryLsn == lsn
      ensures file.None? ==> lastBoundaryLsn == old(lastBoundaryLsn)
    {
      hide Load, EncodeEntry, EncodeEntries;
      if lsn - lastBoundaryLsn <= minLsnGap {
        return None;
      }
      var w := LE(MAGIC, 4) + LE(lsn, 8) + LE(|walk|, 8);
      ghost var head := w;
      assert walk[..0] == [] && EncodeEntries([]) == [] by { EntriesNil(); }
      for i := 0 to |walk|
        invariant w == head + EncodeEntries(walk[..i])
      {
        assert walk[..i + 1] == walk[..i] + [walk[i]];
        EntriesSnoc(walk[..i], walk[i]);
        Assoc(head, EncodeEntries(walk[..i]), EncodeEntry(walk[i]));
        w := w + EncodeEntry(walk[i]);
      }
      assert walk[..|walk|] == walk;
      lastBoundaryLsn := lsn;
      SnapshotRoundTrip(lsn, walk, db);
      file := Some(w);
    }
  }

  lemma EntriesNil()
    ensures EncodeEntries([]) == []
  {
  }

  lemma {:induction false} EntriesSnoc(es: seq<Entry>, e: Entry)
    ensures EncodeEntries(es + [e]) == EncodeEntries(es) + EncodeEntry(e)
  {
    hide EncodeEntry;
    if es == [] {
      assert es + [e] == [e];
      assert EncodeEntries([e]) == EncodeEntry(e) + EncodeEntries([]);
    } else {
      EntriesSnoc(es[1..], e);
      assert (es + [e])[1..] == es[1..] + [e] && (es + [e])[0] == es[0];
      Assoc(EncodeEntry(es[0]), EncodeEntries(es[1..]), EncodeEntry(e));
    }
  }

  function Insert(db: Kv, es: seq<Entry>): Kv
    decreases |es|
  {
    if es == [] then db else Insert(db[es[0].key := es[0].val], es[1..])
  }

  lemma SliceAt(b: bytes, p: nat, y: bytes, i: nat, j: nat)
    requires p + |y| <= |b| && b[p..p + |y|] == y && i <= j <= |y|
    ensures b[p + i..p + j] == y[i..j]
  {
    assert forall k :: 0 <= k < |y| ==> y[k] == b[p + k];
  }

  /** One entry is read back from the middle of a file. */
  lemma LoadOne(b: bytes, p: nat, e: Entry, n: nat, db: Kv)
    requires |e.key| < U32 && |e.val| < U32 && n > 0
    requires p + |EncodeEntry(e)| <= |b| && b[p..p + |EncodeEntry(e)|] == EncodeEntry(e)
    ensures LoadEntries(b, p, n, db) == LoadEntries(b, p + |EncodeEntry(e)|, n - 1, db[e.key := e.val])
  {
    hide LE, UnLE;
    var y, kl, vl := EncodeEntry(e), |e.key|, |e.val|;
    ReadBack32(kl);
    ReadBack32(vl);
    Slices(LE(kl, 4), e.key, LE(vl, 4), e.val);
    SliceAt(b, p, y, 0, 4);
    SliceAt(b, p, y, 4, 4 + kl);
    SliceAt(b, p, y, 4 + kl, 8 + kl);
    SliceAt(b, p, y, 8 + kl, 8 + kl + vl);
    assert y[8 + kl..8 + kl + vl] == y[8 + kl..];
  }

  lemma LoadWritten(b: bytes, p: nat, es: seq<Entry>, db: Kv)
    requires EntriesFit(es) && p <= |b| && b[p..] == EncodeEntries(es)
    ensures LoadEntries(b, p, |es|, db) == Some(Insert(db, es))
  {
    hide EncodeEntries, Insert;
    assert EncodeEntries(es) + [] == EncodeEntries(es);
    LoadSome(b, p, es, [], |es|, db);
  }

  /** Distinct keys: inserting a list gives each listed key its value and leaves every other key alone. */
  lemma {:induction false} InsertLookup(db: Kv, es: seq<Entry>, k: bytes)
    requires forall i, j :: 0 <= i < j < |es| ==> es[i].key != es[j].key
    ensures forall i :: 0 <= i < |es| && es[i].key == k ==> k in Insert(db, es) && Insert(db, es)[k] == es[i].val
    ensures (forall i :: 0 <= i < |es| ==> es[i].key != k) ==>
              (k in Insert(db, es) <==> k in db) && (k in db ==> Insert(db, es)[k] == db[k])
    decreases |es|
  {
    if es == [] {
    } else {
      var db' := db[es[0].key := es[0].val];
      InsertLookup(db', es[1..], k);
      forall i | 0 <= i < |es| && es[i].key == k
        ensures k in Insert(db, es) && Insert(db, es)[k] == es[i].val
      {
        if i > 0 { assert es[1..][i - 1].key == k; }
      }
    }
  }

  lemma InsertWalk(es: seq<Entry>, db: Kv)
    requires Walks(es, db)
    ensures Insert(map[], es) == db
  {
    var m := Insert(map[], es);
    forall k: bytes
      ensures k in m <==> k in db
      ensures k in db ==> k in m && m[k] == db[k]
    {
      InsertLookup(map[], es, k);
    }
  }

  /** The file, byte by byte. */
  lemma SnapshotBytes()
    ensures EncodeSnapshot(7, [Entry([97], [49, 50])]) ==
            [83, 78, 65, 80] + [7, 0, 0, 0, 0, 0, 0, 0] + [1, 0, 0, 0, 0, 0, 0, 0] +
            ([1, 0, 0, 0, 97] + [2, 0, 0, 0, 49, 50])
  {
    var e := Entry([97], [49, 50]);
    assert EncodeEntries([e]) == EncodeEntry(e) + EncodeEntries([e][1..]);
    SmallLE(7);
    SmallLE(1);
    SmallLE(2);
    MagicBytes();
  }

  lemma MagicBytes()
    ensures LE(MAGIC, 4) == [83, 78, 65, 80]
  {
  }

  /** A file is rejected exactly if it is too short for a header or does not start with SNAP. */
  lemma RejectedExactly(b: bytes)
    ensures Load(b) == Invalid <==> |b| < 20 || b[..4] != [83, 78, 65, 80]
  {
    MagicBytes();
    ReadBack32(MAGIC);
    if |b| >= 20 { WriteBack(b[0..4]); }
  }

  /**
   A snapshot file cut short, in the `r`-th byte of entry `k`: if not even a key length is left, the entries
   before it load as if they were all, and otherwise `load` panics.
   */
  lemma CutSnapshot(lsn: nat, es: seq<Entry>, k: nat, r: nat)
    requires EntriesFit(es) && lsn < U64 && |es| < U64 && k < |es| && r < |EncodeEntry(es[k])|
    ensures var head := LE(MAGIC, 4) + LE(lsn, 8) + LE(|es|, 8);
            Load(head + (EncodeEntries(es[..k]) + EncodeEntry(es[k])[..r]))
            == if r < 4 then Loaded(lsn, Insert(map[], es[..k])) else LoadPanics
  {
    hide EncodeEntries, Insert, LoadEntries;
    var head := LE(MAGIC, 4) + LE(lsn, 8) + LE(|es|, 8);
    var part := EncodeEntry(es[k])[..r];
    var b := head + (EncodeEntries(es[..k]) + part);
    Slices(LE(MAGIC, 4), LE(lsn, 8), LE(|es|, 8), EncodeEntries(es[..k]) + part);
    ReadBack32(MAGIC);
    ReadBack64(lsn);
    ReadBack64(|es|);
    DropPrefix(head, EncodeEntries(es[..k]) + part);
    LoadSome(b, 20, es[..k], part, |es|, map[]);
    CutEntry(b, 20 + |EncodeEntries(es[..k])|, es[k], r, |es| - k, Insert(map[], es[..k]));
  }

  /** The first entries of a longer file are read in order. */
  lemma {:induction false} LoadSome(b: bytes, p: nat, es: seq<Entry>, rest: bytes, n: nat, db: Kv)
    requires EntriesFit(es) && p <= |b| && b[p..] == EncodeEntries(es) + rest && |es| <= n
    ensures var q := p + |EncodeEntries(es)|;
            q <= |b| && b[q..] == rest && LoadEntries(b, p, n, db) == LoadEntries(b, q, n - |es|, Insert(db, es))
    decreases |es|
  {
    hide EncodeEntry, LoadEntries;
    if es == [] {
      assert EncodeEntries(es) + rest == rest;
    } else {
      var e, more := es[0], EncodeEntries(es[1..]) + rest;
      Assoc(EncodeEntry(e), EncodeEntries(es[1..]), rest);
      var end := HeadAt(b, p, EncodeEntry(e), more);
      LoadOne(b, p, e, n, db);
      LoadSome(b, end, es[1..], rest, n - 1, db[e.key := e.val]);
    }
  }

  lemma HeadAt(b: bytes, p: nat, head: bytes, more: bytes) returns (end: nat)
    requires p <= |b| && b[p..] == head + more
    ensures end == p + |head| <= |b| && b[p..end] == head && b[end..] == more
  {
    end := p + |head|;
    DropPrefix(head, more);
    assert b[p..end] == b[p..][..|head|];
    assert b[end..] == b[p..][|head|..];
  }

  lemma CutEntry(b: bytes, p: nat, e: Entry, r: nat, n: nat, db: Kv)
    requires |e.key| < U32 && |e.val| < U32 && n > 0 && r < |EncodeEntry(e)|
    requires p <= |b| && b[p..] == EncodeEntry(e)[..r]
    ensures LoadEntries(b, p, n, db) == if r < 4 then Some(db) else None
  {
    hide LE, UnLE;
    var y, kl, vl := EncodeEntry(e), |e.key|, |e.val|;
    assert |b| == p + r;
    if r >= 4 {
      ReadBack32(kl);
      ReadBack32(vl);
      Slices(LE(kl, 4), e.key, LE(vl, 4), e.val);
      assert b[p..p + 4] == b[p..][..4] == y[..r][..4] == y[0..4];
      if r >= 8 + kl {
        assert b[p + 4 + kl..p + 8 + kl] == b[p..][4 + kl..8 + kl];
        assert y[..r][4 + kl..8 + kl] == y[4 + kl..8 + kl];
      }
    }
  }

  /** A snapshot serialised in any map order loads back to the same map and label. */
  lemma SnapshotRoundTrip(lsn: nat, es: seq<Entry>, db: Kv)
    requires Walks(es, db) && EntriesFit(es) && lsn < U64 && |es| < U64
    ensures Load(EncodeSnapshot(lsn, es)) == Loaded(lsn, db)
  {
    hide EncodeEntries, Insert, LoadEntries;
    var head := LE(MAGIC, 4) + LE(lsn, 8) + LE(|es|, 8);
    var b := EncodeSnapshot(lsn, es);
    Slices(LE(MAGIC, 4), LE(lsn, 8), LE(|es|, 8), EncodeEntries(es));
    ReadBack32(MAGIC);
    ReadBack64(lsn);
    ReadBack64(|es|);
    DropPrefix(head, EncodeEntries(es));
    LoadWritten(b, 20, es, map[]);
    InsertWalk(es, db);
  }
}
