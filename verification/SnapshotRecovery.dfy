/**
 Recovery from a snapshot file and segment files, byte for byte (crates/storage/src/snapshot.rs,
 crates/storage/src/lib.rs), and what goes wrong when the log ends before the snapshot's contents.
 */
module SnapshotRecovery {
  import opened Bytes
  import opened Wire
  import opened WalFormat
  import opened Recovery
  import opened SnapshotReplay
  import opened Snapshot
  import CrashReplay

  /** A log cut into segments at record boundaries. */
  function Logs(parts: seq<seq<Rec>>): (b: seq<bytes>)
    ensures |b| == |parts| && forall i :: 0 <= i < |b| ==> b[i] == EncodeLog(parts[i])
  {
    seq(|parts|, i requires 0 <= i < |parts| => EncodeLog(parts[i]))
  }

  /** Where the log is cut makes no difference. */
  lemma {:induction false} ReplayParts(parts: seq<seq<Rec>>, snapLsn: nat, at: Progress)
    requires AllLoggable(Joined(parts))
    ensures ReplayAll(Logs(parts), snapLsn, at) == Clean(Absorb(Joined(parts), snapLsn, at))
  {
    hide Loggable, Replay, EncodeLog;
    if parts != [] {
      var first, rest := parts[0], Joined(parts[1..]);
      assert forall i :: 0 <= i < |first| ==> first[i] == Joined(parts)[i];
      assert forall i :: 0 <= i < |rest| ==> rest[i] == Joined(parts)[|first| + i];
      assert AllLoggable(first) && AllLoggable(rest);
      assert Logs(parts)[1..] == Logs(parts[1..]);
      var mid := Absorb(first, snapLsn, at);
      ReplayLog(first, [], snapLsn, at);
      assert EncodeLog(first) + [] == EncodeLog(first);
      CrashReplay.ReplayEmpty(snapLsn, mid);
      ReplayParts(parts[1..], snapLsn, mid);
      AbsorbAppend(first, rest, snapLsn, at);
    }
  }

  /**
   Snapshot equivalence on files. The snapshot file is labelled `snapLsn`, was serialised from the map in
   any order, and holds the state after the first `m` records, at or past its label. The segments hold the
   history from some record at or before the label on, cut anywhere. Recovery returns exactly what replaying
   the whole history from empty gives, and resumes above every LSN of it.
   */
  lemma SnapshotRecovers(history: seq<Rec>, kept: nat, l: nat, m: nat, snapLsn: nat, es: seq<Entry>,
                         parts: seq<seq<Rec>>)
    requires AllLoggable(history) && Increasing(history) && kept <= l <= m <= |history|
    requires forall i :: 0 <= i < l ==> history[i].lsn <= snapLsn
    requires forall i :: l <= i < |history| ==> history[i].lsn > snapLsn
    requires Walks(es, PutAll(map[], history[..m])) && EntriesFit(es) && |es| < U64 && snapLsn < U64
    requires Joined(parts) == history[kept..]
    ensures var r := RecoverFrom(Some(EncodeSnapshot(snapLsn, es)), Logs(parts));
            && r.Recovered? && r.db == PutAll(map[], history)
            && forall i :: 0 <= i < |history| ==> history[i].lsn < r.nextLsn
  {
    hide Loggable, Absorb, PutAll, ReplayAll, Load, EncodeSnapshot, Walks, Logs, Joined;
    SnapshotRoundTrip(snapLsn, es, PutAll(map[], history[..m]));
    ReplayParts(parts, snapLsn, Progress(PutAll(map[], history[..m]), snapLsn));
    SnapshotEquivalence(history, kept, l, m, snapLsn);
  }

  // ---- A log that ends before the snapshot's contents ----

  /** The first `l` records of a history are those at or below a label. */
  ghost predicate LabelAt(history: seq<Rec>, l: nat, snapLsn: nat) {
    && AllLoggable(history) && Increasing(history) && l <= |history|
    && (forall i :: 0 <= i < l ==> history[i].lsn <= snapLsn)
    && (forall i :: l <= i < |history| ==> history[i].lsn > snapLsn)
  }

  /** Of a stretch of the log, only the records above the label are applied. */
  lemma AbsorbStretch(history: seq<Rec>, kept: nat, l: nat, j: nat, snapLsn: nat, db: Kv)
    requires LabelAt(history, l, snapLsn) && kept <= l && kept <= j <= |history|
    ensures var at := Absorb(history[kept..j], snapLsn, Progress(db, snapLsn));
            if j <= l then at == Progress(db, snapLsn)
            else at == Progress(PutAll(db, history[l..j]), history[j - 1].lsn)
  {
    hide Loggable, Absorb, PutAll;
    var at := Progress(db, snapLsn);
    if j <= l {
      AbsorbBelow(history[kept..j], snapLsn, at);
    } else {
      assert history[kept..j] == history[kept..l] + history[l..j];
      AbsorbAppend(history[kept..l], history[l..j], snapLsn, at);
      AbsorbBelow(history[kept..l], snapLsn, at);
      AbsorbAbove(history[l..j], snapLsn, at);
    }
  }

  /** A key written in part of a log is written in all of it. */
  lemma {:induction false} WrittenOn(a: seq<Rec>, b: seq<Rec>, k: bytes)
    requires AllLoggable(a) && AllLoggable(b) && LastWrite(a, k).Some?
    ensures AllLoggable(a + b) && LastWrite(a + b, k).Some?
  {
    hide Fits;
    assert (a + b)[0] == a[0] && (a + b)[1..] == a[1..] + b;
    if LastWrite(a[1..], k).Some? { WrittenOn(a[1..], b, k); }
  }

  /** The keys that the stretch `l .. j` writes are, at `m`, as it left them. */
  ghost predicate Unchanged(history: seq<Rec>, l: nat, j: nat, m: nat)
    requires AllLoggable(history) && l <= j <= m <= |history|
  {
    forall k: bytes :: LastWrite(history[l..j], k).Some? ==> LastWrite(history[l..m], k) == LastWrite(history[l..j], k)
  }

  lemma ReplayUnchanged(history: seq<Rec>, l: nat, j: nat, m: nat)
    requires AllLoggable(history) && l <= j <= m <= |history|
    ensures var snap := PutAll(map[], history[..m]);
            PutAll(snap, history[l..j]) == snap <==> Unchanged(history, l, j, m)
  {
    hide Loggable, PutAll, LastWrite;
    var snap, base := PutAll(map[], history[..m]), PutAll(map[], history[..l]);
    var db := PutAll(snap, history[l..j]);
    assert history[..m] == history[..l] + history[l..m] && history[l..m] == history[l..j] + history[j..m];
    PutAllAppend(map[], history[..l], history[l..m]);
    forall k: bytes
      ensures LastWrite(history[l..j], k).Some? ==>
        && k in db && k in snap
        && Some(db[k]) == LastWrite(history[l..j], k) && Some(snap[k]) == LastWrite(history[l..m], k)
      ensures LastWrite(history[l..j], k).None? ==> (k in db <==> k in snap) && (k in snap ==> db[k] == snap[k])
    {
      PutAllLookup(snap, history[l..j], k);
      PutAllLookup(base, history[l..m], k);
      if LastWrite(history[l..j], k).Some? { WrittenOn(history[l..j], history[j..m], k); }
    }
  }

  /**
   A snapshot ahead of the log. The snapshot has `l` records at or below its label and holds the state after
   `m` of them; the log on disk ends at record `j`, before that. Recovery returns the snapshot's own state
   if the log ends at or below the label; past it, if and only if each key the log still writes above the
   label is, at the snapshot, as the log left it.
   */
  lemma SnapshotAheadOfLog(history: seq<Rec>, kept: nat, l: nat, j: nat, m: nat, snapLsn: nat)
    requires LabelAt(history, l, snapLsn) && kept <= l <= m <= |history| && kept <= j <= m
    ensures var snap := PutAll(map[], history[..m]);
            var at := Absorb(history[kept..j], snapLsn, Progress(snap, snapLsn));
            && (j <= l ==> at.db == snap)
            && (l <= j ==> (at.db == snap <==> Unchanged(history, l, j, m)))
  {
    hide Loggable, Absorb, PutAll, LastWrite, Unchanged;
    AbsorbStretch(history, kept, l, j, snapLsn, PutAll(map[], history[..m]));
    if l <= j {
      ReplayUnchanged(history, l, j, m);
      if j == l {
        assert history[l..j] == [];
        PutNone(PutAll(map[], history[..m]));
      }
    }
  }

  /**
   The label the source gives: one less than the last LSN of the contents (`m <= l + 1`). Wherever the log
   ends, before or after the snapshot's contents, recovery from the files returns the state after a prefix
   of the history, the longer of what the log and the snapshot hold.
   */
  lemma OwnLabelRecovers(history: seq<Rec>, kept: nat, l: nat, j: nat, m: nat, snapLsn: nat, es: seq<Entry>,
                         parts: seq<seq<Rec>>)
    requires LabelAt(history, l, snapLsn) && kept <= l <= m <= |history| && m <= l + 1 && kept <= j <= |history|
    requires Walks(es, PutAll(map[], history[..m])) && EntriesFit(es) && |es| < U64 && snapLsn < U64
    requires Joined(parts) == history[kept..j]
    ensures RecoverFrom(Some(EncodeSnapshot(snapLsn, es)), Logs(parts))
         == Recovered(PutAll(map[], history[..Max(j, m)]), if j <= l then snapLsn + 1 else history[j - 1].lsn + 1)
  {
    hide Loggable, Absorb, PutAll, ReplayAll, Load, EncodeSnapshot, Walks, Logs, Joined;
    var snap := PutAll(map[], history[..m]);
    SnapshotRoundTrip(snapLsn, es, snap);
    ReplayParts(parts, snapLsn, Progress(snap, snapLsn));
    AbsorbStretch(history, kept, l, j, snapLsn, snap);
    if j > l {
      SnapshotMap(history[..j], l, m);
      assert history[..j][..m] == history[..m] && history[..j][l..] == history[l..j];
    }
  }

  // ---- A point where the condition fails, at a label the source never gives ----

  function Rec1(lsn: nat, key: byte, val: byte): Rec { Rec(lsn, EncodeBody(Put, [key], [val])) }

  lemma Rec1Puts(lsn: nat, key: byte, val: byte, db: Kv)
    requires lsn < U64
    ensures Loggable(Rec1(lsn, key, val)) && ApplyPut(db, Rec1(lsn, key, val).body) == db[[key] := [val]]
  {
    BodyRoundTrip(Put, [key], [val]);
  }

  /**
   Labelled 0, a snapshot of all three records with only the first of them in the log: the key written there
   has been written again, and recovery returns the state after no prefix of the history.
   */
  lemma SnapshotAheadExample()
    ensures var history := [Rec1(1, 97, 1), Rec1(2, 97, 2), Rec1(3, 98, 3)];
            && AllLoggable(history) && Increasing(history)
            && var db := Absorb(history[..1], 0, Progress(PutAll(map[], history), 0)).db;
            && db == map[[97] := [1], [98] := [3]] && !Unchanged(history, 0, 1, 3)
            && forall j :: 0 <= j <= 3 ==> PutAll(map[], history[..j]) != db
  {
    hide Loggable, Rec1, PutAll, Absorb, Increasing, AllLoggable;
    var a, b, c := Rec1(1, 97, 1), Rec1(2, 97, 2), Rec1(3, 98, 3);
    var history := [a, b, c];
    ThreeRecs();
    StatesAlong();
    assert history[..0] == [] && history[..1] == [a] && history[..2] == [a, b] && history[..3] == history;
    var full := PutAll(map[], history);
    OneAbsorbed(full);
    var db := Absorb([a], 0, Progress(full, 0)).db;
    assert db == map[[97] := [1], [98] := [3]];
    assert PutAll(map[], history[..3])[[97]] == [2] && db[[97]] == [1];
    assert !Unchanged(history, 0, 1, 3) by { OverwrittenHere(); }
    assert [98] in db && [98] !in PutAll(map[], history[..0]);
    assert [98] !in PutAll(map[], history[..1]) && [98] !in PutAll(map[], history[..2]);
  }

  lemma OverwrittenHere()
    ensures var history := [Rec1(1, 97, 1), Rec1(2, 97, 2), Rec1(3, 98, 3)];
            AllLoggable(history) && !Unchanged(history, 0, 1, 3)
  {
    hide Loggable, Rec1, PutAll, LastWrite, Increasing, AllLoggable;
    var a, b, c := Rec1(1, 97, 1), Rec1(2, 97, 2), Rec1(3, 98, 3);
    var history := [a, b, c];
    ThreeRecs();
    StatesAlong();
    ReplayUnchanged(history, 0, 1, 3);
    assert history[0..1] == [a] && history[..3] == history;
    var full := PutAll(map[], history);
    Rec1Puts(1, 97, 1, full);
    PutNone(map[]);
    PutNext(full, [], a);
    assert [] + [a] == [a];
    PutNone(full);
    assert full[[97] := [1]][[97]] == [1] && full[[97]] == [2];
  }

  lemma ThreeRecs()
    ensures var history := [Rec1(1, 97, 1), Rec1(2, 97, 2), Rec1(3, 98, 3)];
            AllLoggable(history) && Increasing(history)
  {
    Rec1Puts(1, 97, 1, map[]);
    Rec1Puts(2, 97, 2, map[]);
    Rec1Puts(3, 98, 3, map[]);
  }

  /** The states after 0, 1, 2 and 3 records. */
  lemma StatesAlong()
    ensures var a, b, c := Rec1(1, 97, 1), Rec1(2, 97, 2), Rec1(3, 98, 3);
            && AllLoggable([]) && AllLoggable([a]) && AllLoggable([a, b]) && AllLoggable([a, b, c])
            && PutAll(map[], []) == map[]
            && PutAll(map[], [a]) == map[[97] := [1]]
            && PutAll(map[], [a, b]) == map[[97] := [2]]
            && PutAll(map[], [a, b, c]) == map[[97] := [2], [98] := [3]]
  {
    hide Loggable, Rec1, PutAll, AllLoggable;
    var a, b, c := Rec1(1, 97, 1), Rec1(2, 97, 2), Rec1(3, 98, 3);
    PutNone(map[]);
    assert [] + [a] == [a] && [a] + [b] == [a, b] && [a, b] + [c] == [a, b, c];
    assert map[[97] := [1]][[97] := [2]] == map[[97] := [2]];
    assert map[][[97] := [1]] == map[[97] := [1]];
    assert map[[97] := [2]][[98] := [3]] == map[[97] := [2], [98] := [3]];
    PutRec1([], map[], 1, 97, 1);
    PutRec1([a], map[[97] := [1]], 2, 97, 2);
    PutRec1([a, b], map[[97] := [2]], 3, 98, 3);
  }

  lemma PutRec1(recs: seq<Rec>, db: Kv, lsn: nat, key: byte, val: byte)
    requires AllLoggable(recs) && PutAll(map[], recs) == db && lsn < U64
    ensures AllLoggable(recs + [Rec1(lsn, key, val)])
    ensures PutAll(map[], recs + [Rec1(lsn, key, val)]) == db[[key] := [val]]
  {
    hide Loggable, Rec1, PutAll;
    Rec1Puts(lsn, key, val, db);
    PutNext(map[], recs, Rec1(lsn, key, val));
  }

  lemma PutNext(db: Kv, recs: seq<Rec>, r: Rec)
    requires AllLoggable(recs) && Loggable(r)
    ensures AllLoggable(recs + [r]) && PutAll(db, recs + [r]) == ApplyPut(PutAll(db, recs), r.body)
  {
    hide Fits, IsPut, ApplyPut;
    PutAllAppend(db, recs, [r]);
    assert [r][1..] == [];
  }

  lemma OneAbsorbed(full: Kv)
    ensures var a := Rec1(1, 97, 1);
            AllLoggable([a]) && Absorb([a], 0, Progress(full, 0)).db == full[[97] := [1]]
  {
    var a := Rec1(1, 97, 1);
    Rec1Puts(1, 97, 1, full);
    AbsorbAbove([a], 0, Progress(full, 0));
    assert [a][1..] == [];
  }
}
