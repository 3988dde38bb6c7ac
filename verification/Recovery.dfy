/**
 Crash recovery (crates/storage/src/lib.rs): replay of the WAL segments in listing order on top
 of the snapshot, stopping at the first record that does not decode.
 */
module Recovery {
  import opened Bytes
  import opened Wire
  import opened WalFormat
  import Snapshot

  /** The loop variables `db` and `highest`. */
  datatype Progress = Progress(db: Kv, highest: nat)

  /** How replay of a byte string ends: at its end, at a torn record, or in a panic. */
  datatype Outcome = Clean(at: Progress) | Tail(at: Progress) | Panicked

  function Max(a: nat, b: nat): nat { if a < b then b else a }

  /** One decoded record; `None` when its body makes the wire accessors panic. */
  function ReplayOne(snapLsn: nat, at: Progress, r: Rec): Option<Progress> {
    if r.lsn <= snapLsn then Some(at) else
    if r.body == [] then None else
    if OpOf(r.body) != Put then Some(at.(highest := Max(at.highest, r.lsn))) else
    if !WellFormed(r.body) then None else
    Some(Progress(ApplyPut(at.db, r.body), Max(at.highest, r.lsn)))
  }

  function Replay(b: bytes, snapLsn: nat, at: Progress): Outcome
    decreases |b|
  {
    if b == [] then Clean(at) else
    match Decode(b)
    case Torn => Tail(at)
    case Panics => Panicked
    case Record(r, consumed) =>
      match ReplayOne(snapLsn, at, r)
      case None => Panicked
      case Some(next) => Replay(b[consumed..], snapLsn, next)
  }

  function ReplayAll(segs: seq<bytes>, snapLsn: nat, at: Progress): Outcome {
    if segs == [] then Clean(at) else
    match Replay(segs[0], snapLsn, at)
    case Clean(next) => ReplayAll(segs[1..], snapLsn, next)
    case Tail(end) => Tail(end)
    case Panicked => Panicked
  }

  datatype Recovered = Recovered(db: Kv, nextLsn: nat) | Crashed

  /** What the snapshot file contributes: an absent or unrecognised one contributes nothing. */
  function Base(snap: Option<bytes>): (b: Option<(nat, Kv)>) {
    if snap.None? then Some((0, map[])) else
    match Snapshot.Load(snap.value)
    case Invalid => Some((0, map[]))
    case Loaded(lsn, db) => Some((lsn, db))
    case LoadPanics => None
  }

  function RecoverFrom(snap: Option<bytes>, segs: seq<bytes>): Recovered {
    match Base(snap)
    case None => Crashed
    case Some((snapLsn, db)) =>
      match ReplayAll(segs, snapLsn, Progress(db, snapLsn))
      case Clean(at) => Recovered(at.db, at.highest + 1)
      case Tail(at) => Recovered(at.db, at.highest + 1)
      case Panicked => Crashed
  }

  /** `recover`, with the directory listing already read: the snapshot file, if any, and the segments in order. */
  method Recover(snap: Option<bytes>, segs: seq<bytes>) returns (r: Recovered)
    ensures r == RecoverFrom(snap, segs)
  {
    hide Decode, ReplayOne;
    var db: Kv := map[];
    var snapLsn: nat, highest: nat := 0, 0;
    if snap.Some? {
      var loaded := Snapshot.LoadFile(snap.value);
      match loaded {
        case Invalid =>
        case Loaded(l, d) => db, snapLsn, highest := d, l, l;
        case LoadPanics => return Crashed;
      }
    }
    ghost var goal := ReplayAll(segs, snapLsn, Progress(db, highest));
    var torn := false;
    var i := 0;
    while i < |segs| && !torn
      invariant 0 <= i <= |segs|
      invariant torn ==> goal == Tail(Progress(db, highest))
      invariant !torn ==> goal == ReplayAll(segs[i..], snapLsn, Progress(db, highest))
      decreases |segs| - i, !torn
    {
      var data := segs[i];
      ghost var rest := segs[i + 1..];
      assert segs[i..][0] == data && segs[i..][1..] == rest;
      var p: nat := 0;
      while p < |data| && !torn
        invariant 0 <= p <= |data|
        invariant torn ==> goal == Tail(Progress(db, highest))
        invariant !torn ==> goal == After(Replay(data[p..], snapLsn, Progress(db, highest)), rest, snapLsn)
        decreases |data| - p, !torn
      {
        assert data[p..] != [];
        var d := Decode(data[p..]);
        match d {
          case Torn => torn := true;
          case Panics => return Crashed;
          case Record(rec, consumed) =>
            assert data[p..][consumed..] == data[p + consumed..];
            p := p + consumed;
            var next := ReplayOne(snapLsn, Progress(db, highest), rec);
            if next.None? {
              return Crashed;
            }
            db, highest := next.value.db, next.value.highest;
        }
      }
      assert !torn ==> data[p..] == [];
      i := i + 1;
    }
    assert !torn ==> segs[i..] == [];
    r := Recovered(db, highest + 1);
  }

  /** Continue with the remaining segments once one segment's replay has ended. */
  ghost function After(o: Outcome, rest: seq<bytes>, snapLsn: nat): Outcome {
    match o
    case Clean(next) => ReplayAll(rest, snapLsn, next)
    case Tail(end) => Tail(end)
    case Panicked => Panicked
  }

  /**
   A single record, whatever its body, in a log without a snapshot: a PUT is applied, any other opcode only
   moves the next LSN past it, and a body that is empty, or a PUT whose key does not fit, crashes recovery.
   */
  lemma OneRecord(r: Rec)
    requires Fits(r) && r.lsn > 0
    ensures RecoverFrom(None, [Encode(r)]) ==
      if r.body == [] then Crashed else
      if r.body[0] != 1 then Recovered(map[], r.lsn + 1) else
      if |r.body| < 5 || UnLE(r.body[1..5]) > |r.body| - 5 then Crashed else
      var n := UnLE(r.body[1..5]);
      Recovered(map[r.body[5..5 + n] := r.body[5 + n..]], r.lsn + 1)
  {
    hide Encode, Decode;
    var b, none := Encode(r), Progress(map[], 0);
    DecodeEncode(r, []);
    assert b + [] == b && b[|b|..] == [];
    var segs: seq<bytes> := [b];
    assert segs[1..] == [];
    var next := ReplayOne(0, none, r);
    if next.Some? {
      assert Replay([], 0, next.value) == Clean(next.value);
      assert Replay(b, 0, none) == Clean(next.value);
      assert ReplayAll([], 0, next.value) == Clean(next.value);
    }
  }

  /** A file that is no snapshot counts as none; one that is cut inside an entry crashes recovery. */
  lemma BadSnapshot(b: bytes, segs: seq<bytes>)
    ensures |b| < 20 || b[..4] != [83, 78, 65, 80] ==> RecoverFrom(Some(b), segs) == RecoverFrom(None, segs)
    ensures Snapshot.Load(b) == Snapshot.LoadPanics ==> RecoverFrom(Some(b), segs) == Crashed
  {
    hide Snapshot.Load;
    Snapshot.RejectedExactly(b);
  }

  // ---- Replay of logs the engine wrote ----

  predicate Loggable(r: Rec) { Fits(r) && IsPut(r.body) }

  predicate AllLoggable(recs: seq<Rec>) { forall i :: 0 <= i < |recs| ==> Loggable(recs[i]) }

  function EncodeLog(recs: seq<Rec>): bytes {
    if recs == [] then [] else Encode(recs[0]) + EncodeLog(recs[1..])
  }

  /** The meaning of a log: its PUTs above the snapshot, in order. */
  function Absorb(recs: seq<Rec>, snapLsn: nat, at: Progress): Progress
    requires AllLoggable(recs)
  {
    if recs == [] then at else
    Absorb(recs[1..], snapLsn, ReplayOne(snapLsn, at, recs[0]).value)
  }

  lemma {:induction false} EncodeLogAppend(a: seq<Rec>, b: seq<Rec>)
    ensures EncodeLog(a + b) == EncodeLog(a) + EncodeLog(b)
  {
    hide Encode;
    if a == [] {
      assert a + b == b;
    } else {
      EncodeLogAppend(a[1..], b);
      assert (a + b)[1..] == a[1..] + b && (a + b)[0] == a[0];
      Assoc(Encode(a[0]), EncodeLog(a[1..]), EncodeLog(b));
    }
  }

  lemma {:induction false} AbsorbAppend(a: seq<Rec>, b: seq<Rec>, snapLsn: nat, at: Progress)
    requires AllLoggable(a) && AllLoggable(b)
    ensures Absorb(a + b, snapLsn, at) == Absorb(b, snapLsn, Absorb(a, snapLsn, at))
  {
    if a == [] {
      assert a + b == b;
    } else {
      AbsorbAppend(a[1..], b, snapLsn, ReplayOne(snapLsn, at, a[0]).value);
      assert (a + b)[1..] == a[1..] + b && (a + b)[0] == a[0];
    }
  }

  /** Replay consumes a whole log and goes on with whatever follows it. */
  lemma {:induction false} ReplayLog(recs: seq<Rec>, tail: bytes, snapLsn: nat, at: Progress)
    requires AllLoggable(recs)
    ensures Replay(EncodeLog(recs) + tail, snapLsn, at) == Replay(tail, snapLsn, Absorb(recs, snapLsn, at))
  {
    if recs == [] {
      assert EncodeLog(recs) + tail == tail;
    } else {
      var head, rest := Encode(recs[0]), EncodeLog(recs[1..]) + tail;
      Assoc(head, EncodeLog(recs[1..]), tail);
      DecodeEncode(recs[0], rest);
      DropPrefix(head, rest);
      ReplayLog(recs[1..], tail, snapLsn, ReplayOne(snapLsn, at, recs[0]).value);
    }
  }

  /** How many records lie wholly before a cut. */
  function WholeBefore(recs: seq<Rec>, cut: nat): (k: nat)
    ensures k <= |recs|
  {
    if recs == [] || |Encode(recs[0])| > cut then 0
    else 1 + WholeBefore(recs[1..], cut - |Encode(recs[0])|)
  }

  lemma {:induction false} WholeBeforeExact(recs: seq<Rec>, cut: nat)
    ensures var k := WholeBefore(recs, cut);
            && |EncodeLog(recs[..k])| <= cut
            && (k < |recs| ==> cut < |EncodeLog(recs[..k])| + |Encode(recs[k])|)
  {
    if recs == [] || |Encode(recs[0])| > cut {
    } else {
      var k := WholeBefore(recs, cut);
      WholeBeforeExact(recs[1..], cut - |Encode(recs[0])|);
      assert recs[..k][1..] == recs[1..][..k - 1];
    }
  }

  /** The bytes before a cut: the whole records, then part of the next one. */
  lemma CutLog(recs: seq<Rec>, cut: nat)
    requires cut <= |EncodeLog(recs)|
    ensures var k := WholeBefore(recs, cut);
            var rest := cut - |EncodeLog(recs[..k])|;
            && 0 <= rest
            && (k == |recs| ==> rest == 0)
            && (k < |recs| ==> rest < |Encode(recs[k])|)
            && EncodeLog(recs)[..cut] == EncodeLog(recs[..k]) + (if k < |recs| then Encode(recs[k])[..rest] else [])
  {
    hide Encode, WholeBefore;
    var k := WholeBefore(recs, cut);
    WholeBeforeExact(recs, cut);
    EncodeLogAppend(recs[..k], recs[k..]);
    assert recs == recs[..k] + recs[k..];
    if k < |recs| {
      assert recs[k..][0] == recs[k];
      CutTwo(EncodeLog(recs[..k]), Encode(recs[k]), EncodeLog(recs[k..][1..]), cut);
    } else {
      assert recs[..k] == recs;
    }
  }

  lemma CutTwo(a: bytes, b: bytes, c: bytes, cut: nat)
    requires |a| <= cut <= |a| + |b|
    ensures (a + (b + c))[..cut] == a + b[..cut - |a|]
  {
  }

  /**
   Torn tail: a log cut at any byte replays exactly the records lying wholly before the cut, and is
   reported torn unless the cut falls between two records. No collision-freedom of the checksum is used.
   */
  lemma TornTail(recs: seq<Rec>, cut: nat, snapLsn: nat, at: Progress)
    requires AllLoggable(recs) && cut <= |EncodeLog(recs)|
    ensures var k := WholeBefore(recs, cut);
            var end := Absorb(recs[..k], snapLsn, at);
            Replay(EncodeLog(recs)[..cut], snapLsn, at) ==
            if |EncodeLog(recs[..k])| == cut then Clean(end) else Tail(end)
  {
    hide Encode, EncodeLog, WholeBefore, Absorb, Decode, IsPut, Fits;
    var k := WholeBefore(recs, cut);
    CutLog(recs, cut);
    var rest := cut - |EncodeLog(recs[..k])|;
    var part := if k < |recs| then Encode(recs[k])[..rest] else [];
    ReplayLog(recs[..k], part, snapLsn, at);
    if k < |recs| {
      assert Loggable(recs[k]);
      CutRecordTorn(recs[k], rest);
    }
  }

  /** A log followed by a hole of zeroes replays the log and stops there, whatever lies past the hole. */
  lemma HoleStopsReplay(recs: seq<Rec>, n: nat, rest: bytes, snapLsn: nat, at: Progress)
    requires AllLoggable(recs) && 0 < n && (n >= 12 || rest == [])
    ensures Replay(EncodeLog(recs) + (Zeros(n) + rest), snapLsn, at) == Tail(Absorb(recs, snapLsn, at))
  {
    ReplayLog(recs, Zeros(n) + rest, snapLsn, at);
    ZeroHoleTorn(n, rest);
  }
}
