/**
 Replay of segment files as a crash may leave them (crates/storage/src/lib.rs): whole files, then one
 that was being written. Each file holds what it held at start-up followed by this run's records.
 */
module CrashReplay {
  import opened Bytes
  import opened WalFormat
  import opened Recovery
  import opened IoLine

  // ---- Replay of concatenations ----

  /** A string that replays cleanly is transparent: what follows it is replayed from where it ended. */
  lemma {:induction false} ReplayOnward(a: bytes, b: bytes, snapLsn: nat, at: Progress, mid: Progress)
    requires Replay(a, snapLsn, at) == Clean(mid)
    ensures Replay(a + b, snapLsn, at) == Replay(b, snapLsn, mid)
    decreases |a|
  {
    hide ReplayOne, Decode;
    if a == [] {
      assert a + b == b;
    } else {
      DecodeOnward(a, b);
      var d := Decode(a);
      ReplayOnward(a[d.consumed..], b, snapLsn, ReplayOne(snapLsn, at, d.rec).value, mid);
      assert (a + b)[d.consumed..] == a[d.consumed..] + b;
    }
  }

  lemma DecodeOnward(a: bytes, b: bytes)
    requires Decode(a).Record?
    ensures Decode(a + b) == Decode(a)
  {
    hide Checksum;
    var n := Decode(a).consumed;
    assert forall i, j | 0 <= i <= j <= |a| :: (a + b)[i..j] == a[i..j];
  }

  lemma {:induction false} HighestGrows(a: bytes, snapLsn: nat, at: Progress)
    ensures var o := Replay(a, snapLsn, at); o.Clean? ==> o.at.highest >= at.highest
    decreases |a|
  {
    hide Wire.ApplyPut;
    if a != [] && Decode(a).Record? {
      var d := Decode(a);
      var next := ReplayOne(snapLsn, at, d.rec);
      if next.Some? { HighestGrows(a[d.consumed..], snapLsn, next.value); }
    }
  }

  lemma {:induction false} HighestGrowsAll(segs: seq<bytes>, snapLsn: nat, at: Progress)
    ensures var o := ReplayAll(segs, snapLsn, at); o.Clean? ==> o.at.highest >= at.highest
  {
    hide Replay;
    if segs != [] {
      HighestGrows(segs[0], snapLsn, at);
      var o := Replay(segs[0], snapLsn, at);
      if o.Clean? { HighestGrowsAll(segs[1..], snapLsn, o.at); }
    }
  }

  lemma {:induction false} ReplayAllOnward(a: seq<bytes>, b: seq<bytes>, snapLsn: nat, at: Progress)
    ensures ReplayAll(a + b, snapLsn, at) == After(ReplayAll(a, snapLsn, at), b, snapLsn)
  {
    hide Replay;
    if a == [] {
      assert a + b == b;
    } else {
      assert (a + b)[0] == a[0] && (a + b)[1..] == a[1..] + b;
      var o := Replay(a[0], snapLsn, at);
      if o.Clean? { ReplayAllOnward(a[1..], b, snapLsn, o.at); }
    }
  }

  // ---- Lists of files ----

  function Bases(fs: seq<File>): (b: seq<bytes>)
    ensures |b| == |fs| && forall i :: 0 <= i < |b| ==> b[i] == fs[i].base
  {
    seq(|fs|, i requires 0 <= i < |fs| => fs[i].base)
  }

  function Wants(fs: seq<File>): (b: seq<bytes>)
    ensures |b| == |fs| && forall i :: 0 <= i < |b| ==> b[i] == fs[i].want
  {
    seq(|fs|, i requires 0 <= i < |fs| => fs[i].want)
  }

  /** The records this run has appended, file after file. */
  function Flat(fs: seq<File>): seq<Rec> {
    if fs == [] then [] else fs[0].recs + Flat(fs[1..])
  }

  lemma {:induction false} FlatAppend(a: seq<File>, b: seq<File>)
    ensures Flat(a + b) == Flat(a) + Flat(b)
  {
    if a == [] {
      assert a + b == b;
    } else {
      FlatAppend(a[1..], b);
      assert (a + b)[0] == a[0] && (a + b)[1..] == a[1..] + b;
      Assoc(a[0].recs, Flat(a[1..]), Flat(b));
    }
  }

  lemma FlatOne(f: File)
    ensures Flat([f]) == f.recs
  {
    assert Flat([f][1..]) == [];
  }

  /** No file after one this run has written to held anything at start-up. */
  ghost predicate OldFirst(fs: seq<File>) {
    forall i, j :: 0 <= i < j < |fs| && fs[i].recs != [] ==> fs[j].base == []
  }

  ghost predicate Planned(f: File) { AllLoggable(f.recs) && f.want == f.base + EncodeLog(f.recs) }

  ghost predicate AllPlanned(fs: seq<File>) { forall i :: 0 <= i < |fs| ==> Planned(fs[i]) }

  lemma {:induction false} EmptyBases(fs: seq<File>, snapLsn: nat, at: Progress)
    requires forall i :: 0 <= i < |fs| ==> fs[i].base == []
    ensures ReplayAll(Bases(fs), snapLsn, at) == Clean(at)
  {
    if fs != [] {
      EmptyBases(fs[1..], snapLsn, at);
      assert Bases(fs)[1..] == Bases(fs[1..]);
    }
  }

  lemma {:induction false} FlatLoggable(fs: seq<File>)
    requires AllPlanned(fs)
    ensures AllLoggable(Flat(fs))
  {
    hide Loggable, EncodeLog;
    if fs != [] {
      assert Planned(fs[0]);
      FlatLoggable(fs[1..]);
    }
  }

  lemma ReplayPlanned(f: File, snapLsn: nat, at: Progress, mid: Progress)
    requires Planned(f) && Replay(f.base, snapLsn, at) == Clean(mid)
    ensures Replay(f.want, snapLsn, at) == Clean(Absorb(f.recs, snapLsn, mid))
  {
    hide Replay, EncodeLog, Absorb;
    ReplayOnward(f.base, EncodeLog(f.recs), snapLsn, at, mid);
    ReplayLog(f.recs, [], snapLsn, mid);
    assert EncodeLog(f.recs) + [] == EncodeLog(f.recs);
    ReplayEmpty(snapLsn, Absorb(f.recs, snapLsn, mid));
  }

  lemma ReplayEmpty(snapLsn: nat, at: Progress)
    ensures Replay([], snapLsn, at) == Clean(at)
  {
  }

  /**
   Whole files replay to what they held at start-up, then this run's records in order.
   */
  lemma {:induction false} ReplayWhole(fs: seq<File>, snapLsn: nat, at: Progress, end: Progress)
    requires OldFirst(fs) && AllPlanned(fs) && ReplayAll(Bases(fs), snapLsn, at) == Clean(end)
    ensures AllLoggable(Flat(fs))
    ensures ReplayAll(Wants(fs), snapLsn, at) == Clean(Absorb(Flat(fs), snapLsn, end))
  {
    hide Replay, Planned, Loggable;
    FlatLoggable(fs);
    if fs != [] {
      var f, rest := fs[0], fs[1..];
      assert Planned(f) && AllLoggable(f.recs) && AllPlanned(rest) by { PlannedParts(fs); }
      assert Bases(fs)[0] == f.base && Bases(fs)[1..] == Bases(rest);
      assert Wants(fs)[0] == f.want && Wants(fs)[1..] == Wants(rest);
      assert OldFirst(rest) by { assert forall i :: 0 <= i < |rest| ==> rest[i] == fs[i + 1]; }
      FlatLoggable(rest);
      var mid := Replay(f.base, snapLsn, at).at;
      ReplayPlanned(f, snapLsn, at, mid);
      AbsorbAppend(f.recs, Flat(rest), snapLsn, end);
      SkipBases(f, rest, snapLsn, mid, end);
      ReplayWhole(rest, snapLsn, Absorb(f.recs, snapLsn, mid), Absorb(f.recs, snapLsn, end));
    }
  }

  lemma PlannedParts(fs: seq<File>)
    requires AllPlanned(fs) && fs != []
    ensures Planned(fs[0]) && AllLoggable(fs[0].recs) && AllPlanned(fs[1..])
  {
    hide EncodeLog, Loggable;
    assert Planned(fs[0]);
  }

  /** A file's records may be applied before or after later files' old content: one of the two is absent. */
  lemma SkipBases(f: File, rest: seq<File>, snapLsn: nat, mid: Progress, end: Progress)
    requires AllLoggable(f.recs) && OldFirst([f] + rest)
    requires ReplayAll(Bases(rest), snapLsn, mid) == Clean(end)
    ensures ReplayAll(Bases(rest), snapLsn, Absorb(f.recs, snapLsn, mid)) == Clean(Absorb(f.recs, snapLsn, end))
  {
    hide ReplayAll, Loggable;
    if f.recs != [] {
      var fs := [f] + rest;
      forall i | 0 <= i < |rest| ensures rest[i].base == [] {
        assert fs[0].recs != [] && fs[i + 1] == rest[i];
      }
      EmptyBases(rest, snapLsn, mid);
      EmptyBases(rest, snapLsn, Absorb(f.recs, snapLsn, mid));
    }
  }

  // ---- The file being written ----

  /** Replay ends, cleanly or at a tear, having applied exactly the first `j` records. */
  ghost predicate ReplaysTo(o: Outcome, recs: seq<Rec>, j: nat, snapLsn: nat, at: Progress)
    requires AllLoggable(recs) && j <= |recs|
  {
    o == Clean(Absorb(recs[..j], snapLsn, at)) || o == Tail(Absorb(recs[..j], snapLsn, at))
  }

  /** Where this run's first `j` records end in the file. */
  function RecEnd(f: File, j: nat): nat
    requires j <= |f.recs|
  {
    |f.base| + |EncodeLog(f.recs[..j])|
  }

  /** Up to `h`, the image is what the file is to hold. */
  ghost predicate SolidTo(f: File, img: bytes, h: nat) {
    h <= |img| && h <= |f.want| && img[..h] == f.want[..h]
  }

  /** How many of the first `n` records the image has in full, and everything before them too. */
  ghost function Intact(f: File, img: bytes, n: nat): (j: nat)
    requires n <= |f.recs|
    ensures j <= n && (j == 0 || SolidTo(f, img, RecEnd(f, j)))
    ensures forall i :: j < i <= n ==> !SolidTo(f, img, RecEnd(f, i))
  {
    if n == 0 || SolidTo(f, img, RecEnd(f, n)) then n else Intact(f, img, n - 1)
  }

  /** What is found where the first record the image lacks should be, if anything is, fails to decode. */
  ghost predicate TearSeen(f: File, img: bytes) {
    var h := RecEnd(f, Intact(f, img, |f.recs|));
    h < |img| ==> Decode(img[h..]) == Torn
  }

  /** Nothing follows the last intact record. */
  ghost predicate EndsOnRecord(f: File, img: bytes) { |img| <= RecEnd(f, Intact(f, img, |f.recs|)) }

  /** What the file is to hold up to the end of its first `q` records. */
  lemma WantUpTo(f: File, q: nat)
    requires Planned(f) && q <= |f.recs|
    ensures RecEnd(f, q) <= |f.want| && f.want[..RecEnd(f, q)] == f.base + EncodeLog(f.recs[..q])
    ensures q == |f.recs| ==> RecEnd(f, q) == |f.want|
  {
    hide EncodeLog;
    assert f.recs == f.recs[..q] + f.recs[q..];
    EncodeLogAppend(f.recs[..q], f.recs[q..]);
    if q == |f.recs| { assert f.recs[..q] == f.recs; }
  }

  /** Replay of an image whose tear is seen: exactly the records before the tear, and whether there is one. */
  lemma ReplayImage(f: File, img: bytes, snapLsn: nat, at: Progress, mid: Progress)
    requires Planned(f) && Replay(f.base, snapLsn, at) == Clean(mid)
    requires SolidTo(f, img, |f.base|) && TearSeen(f, img)
    ensures ReplaysTo(Replay(img, snapLsn, at), f.recs, Intact(f, img, |f.recs|), snapLsn, mid)
    ensures Replay(img, snapLsn, at).Clean? <==> EndsOnRecord(f, img)
  {
    hide Replay, EncodeLog, Absorb, Loggable, Decode, Intact;
    var j := Intact(f, img, |f.recs|);
    assert RecEnd(f, 0) == |f.base| by { NoLog(f); }
    var h := RecEnd(f, j);
    WantUpTo(f, j);
    var log, rest := EncodeLog(f.recs[..j]), img[h..];
    assert img == img[..h] + rest;
    Assoc(f.base, log, rest);
    ReplayOnward(f.base, log + rest, snapLsn, at, mid);
    ReplayLog(f.recs[..j], rest, snapLsn, mid);
    ReplayTorn(rest, snapLsn, Absorb(f.recs[..j], snapLsn, mid));
  }

  lemma NoLog(f: File)
    ensures RecEnd(f, 0) == |f.base|
  {
  }

  lemma ReplayTorn(b: bytes, snapLsn: nat, at: Progress)
    requires b == [] || Decode(b) == Torn
    ensures Replay(b, snapLsn, at) == if b == [] then Clean(at) else Tail(at)
  {
    hide Decode;
  }

  lemma RecEndNext(f: File, q: nat)
    requires Planned(f) && q < |f.recs|
    ensures RecEnd(f, q + 1) == RecEnd(f, q) + |Encode(f.recs[q])| <= |f.want| && |Encode(f.recs[q])| > 0
    ensures f.want[RecEnd(f, q)..RecEnd(f, q + 1)] == Encode(f.recs[q])
  {
    hide Encode, EncodeLog;
    WantUpTo(f, q + 1);
    assert f.recs[..q + 1] == f.recs[..q] + [f.recs[q]];
    EncodeLogAppend(f.recs[..q], [f.recs[q]]);
    LogOfOne(f.recs[q]);
  }

  lemma LogOfOne(r: Rec)
    ensures EncodeLog([r]) == Encode(r) && |Encode(r)| > 0
  {
    assert EncodeLog([r][1..]) == [];
  }

  lemma {:induction false} RecEndGrows(f: File, q: nat, j: nat)
    requires Planned(f) && q <= j <= |f.recs|
    ensures RecEnd(f, q) <= RecEnd(f, j) <= |f.want|
    decreases j
  {
    hide Planned, RecEnd, Encode;
    if q < j {
      RecEndGrows(f, q, j - 1);
      RecEndNext(f, j - 1);
    } else {
      WantUpTo(f, q);
    }
  }

  lemma SolidBelow(f: File, img: bytes, g: nat, h: nat)
    requires SolidTo(f, img, h) && g <= h
    ensures SolidTo(f, img, g)
  {
    assert img[..g] == img[..h][..g] && f.want[..g] == f.want[..h][..g];
  }

  /** A record the image has in full decodes. */
  lemma SolidDecodes(f: File, img: bytes, q: nat)
    requires Planned(f) && q < |f.recs| && SolidTo(f, img, RecEnd(f, q + 1))
    ensures RecEnd(f, q) < |img| && Decode(img[RecEnd(f, q)..]).Record?
  {
    hide Encode, EncodeLog, Decode, RecEnd;
    RecEndNext(f, q);
    var g, h := RecEnd(f, q), RecEnd(f, q + 1);
    assert img[g..] == img[..h][g..] + img[h..];
    assert f.want[..h][g..] == f.want[g..h];
    assert Loggable(f.recs[q]);
    DecodeEncode(f.recs[q], img[h..]);
  }

  /** A tear found behind `q` intact records is the first. */
  lemma TearAt(f: File, img: bytes, q: nat)
    requires Planned(f) && q <= |f.recs| && SolidTo(f, img, RecEnd(f, q))
    requires RecEnd(f, q) < |img| ==> Decode(img[RecEnd(f, q)..]) == Torn
    ensures Intact(f, img, |f.recs|) == q && TearSeen(f, img)
  {
    hide Planned, RecEnd, Decode, SolidTo;
    var j := Intact(f, img, |f.recs|);
    if q < j {
      RecEndGrows(f, q + 1, j);
      SolidBelow(f, img, RecEnd(f, q + 1), RecEnd(f, j));
      SolidDecodes(f, img, q);
    }
  }

  /** A hole at a record boundary is seen: zeroes as far as the image reaches, or at least twelve of them. */
  lemma HoleSeen(f: File, img: bytes, q: nat, n: nat)
    requires Planned(f) && q <= |f.recs| && n >= 12 && SolidTo(f, img, RecEnd(f, q))
    requires forall p: nat :: RecEnd(f, q) <= p < RecEnd(f, q) + n && p < |img| ==> img[p] == 0
    ensures Intact(f, img, |f.recs|) == q && TearSeen(f, img)
  {
    hide Planned, RecEnd, Decode, Intact, TearSeen;
    var h := RecEnd(f, q);
    if h < |img| {
      var z := if h + n <= |img| then n else |img| - h;
      assert img[h..h + z] == Zeros(z);
      assert img[h..] == Zeros(z) + img[h + z..];
      ZeroHoleTorn(z, img[h + z..]);
    }
    TearAt(f, img, q);
  }

  lemma CutSolid(f: File, img: bytes, g: nat)
    requires |img| <= |f.want| && img == f.want[..|img|]
    ensures SolidTo(f, img, g) <==> g <= |img|
  {
    if g <= |img| { assert img[..g] == f.want[..g]; }
  }

  /** A file that just ends early, at whatever byte, is seen to. */
  lemma CutSeen(f: File, img: bytes)
    requires Planned(f) && |f.base| <= |img| <= |f.want| && img == f.want[..|img|]
    ensures TearSeen(f, img)
  {
    hide Planned, RecEnd, Decode, Intact, Encode, Loggable;
    var j := Intact(f, img, |f.recs|);
    NoLog(f);
    var h := RecEnd(f, j);
    if h < |img| {
      WantUpTo(f, j);
      RecEndNext(f, j);
      var g := RecEnd(f, j + 1);
      CutSolid(f, img, g);
      assert img[h..] == f.want[h..g][..|img| - h];
      PlannedLoggable(f, j);
      CutRecordTorn(f.recs[j], |img| - h);
    }
  }

  lemma PlannedLoggable(f: File, j: nat)
    requires Planned(f) && j < |f.recs|
    ensures Fits(f.recs[j])
  {
    hide EncodeLog;
    assert Loggable(f.recs[j]);
  }

  lemma FileBounds(line: seq<Slot>, nCq: nat, f: File)
    requires LineInv(line, nCq, f)
    ensures nCq <= |line| && |f.synced| <= |f.data| <= |f.want|
  {
  }

  // ---- All files ----

  /** Up to the file being written: its old content, and then this run's records, find the state they expect. */
  lemma ReplayLead(pre: seq<File>, f: File, img: bytes, snapLsn: nat, at: Progress, end: Progress)
      returns (there: Progress)
    requires OldFirst(pre + [f]) && AllPlanned(pre + [f]) && ReplayAll(Bases(pre + [f]), snapLsn, at) == Clean(end)
    ensures AllLoggable(Flat(pre)) && AllLoggable(f.recs) && AllLoggable(Flat(pre) + f.recs)
    ensures Flat(pre + [f]) == Flat(pre) + f.recs
    ensures ReplayAll(Wants(pre) + [img], snapLsn, at) == Replay(img, snapLsn, there)
    ensures Replay(f.base, snapLsn, there) == Clean(Absorb(Flat(pre), snapLsn, end))
  {
    hide Replay, ReplayAll, EncodeLog, Absorb, Loggable, Planned, Flat;
    var fs := pre + [f];
    PrePlanned(pre, f);
    FlatAppend(pre, [f]);
    FlatOne(f);
    FlatLoggable(fs);
    assert Bases(fs) == Bases(pre) + [f.base];
    ReplayAllOnward(Bases(pre), [f.base], snapLsn, at);
    ReplayAllOnward(Wants(pre), [img], snapLsn, at);
    var mid := ReplayAll(Bases(pre), snapLsn, at).at;
    OneSegment(f.base, snapLsn, mid);
    ReplayWhole(pre, snapLsn, at, mid);
    there := Absorb(Flat(pre), snapLsn, mid);
    SkipBase(pre, f, snapLsn, mid, end);
    OneSegment(img, snapLsn, there);
  }

  lemma PrePlanned(pre: seq<File>, f: File)
    requires OldFirst(pre + [f]) && AllPlanned(pre + [f])
    ensures OldFirst(pre) && AllPlanned(pre) && Planned(f) && AllLoggable(f.recs)
  {
    hide EncodeLog, Loggable;
    var fs := pre + [f];
    assert forall i :: 0 <= i < |pre| ==> fs[i] == pre[i];
    assert Planned(fs[|pre|]);
  }

  lemma OneSegment(b: bytes, snapLsn: nat, at: Progress)
    ensures var o := Replay(b, snapLsn, at);
            && (o.Clean? ==> ReplayAll([b], snapLsn, at) == o)
            && (o.Tail? ==> ReplayAll([b], snapLsn, at) == o)
            && (o.Panicked? ==> ReplayAll([b], snapLsn, at) == o)
  {
    hide Replay;
    var o := Replay(b, snapLsn, at);
    assert [b][1..] == [];
    if o.Clean? { assert ReplayAll([], snapLsn, o.at) == o; }
  }

  /** The last file's old content replays alike before and after the earlier files' records. */
  lemma SkipBase(pre: seq<File>, f: File, snapLsn: nat, mid: Progress, end: Progress)
    requires OldFirst(pre + [f]) && AllLoggable(Flat(pre)) && Replay(f.base, snapLsn, mid) == Clean(end)
    ensures Replay(f.base, snapLsn, Absorb(Flat(pre), snapLsn, mid)) == Clean(Absorb(Flat(pre), snapLsn, end))
  {
    hide Replay, Loggable, Absorb;
    if Flat(pre) != [] {
      FlatSource(pre);
      var i :| 0 <= i < |pre| && pre[i].recs != [];
      assert (pre + [f])[i] == pre[i] && (pre + [f])[|pre|] == f;
      ReplayEmpty(snapLsn, mid);
      ReplayEmpty(snapLsn, Absorb(Flat(pre), snapLsn, mid));
    } else {
      NoRecs(snapLsn, mid);
      NoRecs(snapLsn, end);
    }
  }

  lemma NoRecs(snapLsn: nat, at: Progress)
    ensures Absorb([], snapLsn, at) == at
  {
  }

  lemma {:induction false} FlatSource(fs: seq<File>)
    requires Flat(fs) != []
    ensures exists i :: 0 <= i < |fs| && fs[i].recs != []
  {
    if fs[0].recs == [] {
      FlatSource(fs[1..]);
      var i :| 0 <= i < |fs[1..]| && fs[1..][i].recs != [];
      assert fs[i + 1].recs != [];
    }
  }

  lemma Rejoin(a: seq<Rec>, b: seq<Rec>, j: nat, o: Outcome, snapLsn: nat, end: Progress)
    requires AllLoggable(a) && AllLoggable(b) && AllLoggable(a + b) && j <= |b|
    requires ReplaysTo(o, b, j, snapLsn, Absorb(a, snapLsn, end))
    ensures ReplaysTo(o, a + b, |a| + j, snapLsn, end)
  {
    hide Loggable, Absorb;
    AbsorbAppend(a, b[..j], snapLsn, end);
    assert (a + b)[..|a| + j] == a + b[..j];
  }
}
