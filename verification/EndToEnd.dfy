/**
 End to end: what stage 3 encodes (crates/server/src/stage3/mod.rs) and `recover` replays
 (crates/storage/src/lib.rs) is what stage 2 executed (crates/server/src/stage2/mod.rs).
 */
module EndToEnd {
  import opened Bytes
  import opened Wire
  import opened WalFormat
  import opened Recovery
  import opened SnapshotReplay
  import opened Types
  import opened Stage2
  import opened WalCore
  import CrashReplay

  /** Requests a record can carry: its body and LSN fit their fields. */
  ghost predicate Loggables(lsn: nat, bodies: seq<bytes>) {
    && AllWellFormed(bodies)
    && (forall i :: 0 <= i < |bodies| ==> 8 + |bodies[i]| < U32)
    && lsn + |RecsOf(lsn, bodies)| < U64
  }

  lemma RecsLoggable(lsn: nat, bodies: seq<bytes>)
    requires Loggables(lsn, bodies)
    ensures AllLoggable(RecsOf(lsn, bodies)) && Increasing(RecsOf(lsn, bodies))
  {
    hide RecsOf, IsPut, WellFormed;
    RecsNumbered(lsn, bodies);
    var rs := RecsOf(lsn, bodies);
    forall i | 0 <= i < |rs| ensures Loggable(rs[i]) {
      assert rs[i].body in bodies;
    }
  }

  /** Executing requests and replaying the records of their PUTs give the same map. */
  lemma {:induction false} ExecIsPutAll(db: Kv, lsn: nat, bodies: seq<bytes>)
    requires AllWellFormed(bodies) && AllLoggable(RecsOf(lsn, bodies))
    ensures PutAll(db, RecsOf(lsn, bodies)) == Exec(db, bodies)
  {
    hide ApplyPut, OpOf, Fits;
    if bodies != [] {
      var n := |bodies| - 1;
      var before, rs := RecsOf(lsn, bodies[..n]), RecsOf(lsn, bodies);
      assert AllLoggable(before) by { assert forall i :: 0 <= i < |before| ==> before[i] == rs[i]; }
      ExecIsPutAll(db, lsn, bodies[..n]);
      if OpOf(bodies[n]) == Put {
        var r := rs[|rs| - 1];
        assert rs == before + [r] && Loggable(r);
        PutAllAppend(db, before, [r]);
        PutOne(Exec(db, bodies[..n]), r);
      }
    }
  }

  lemma PutOne(db: Kv, r: Rec)
    requires Loggable(r)
    ensures AllLoggable([r]) && PutAll(db, [r]) == ApplyPut(db, r.body)
  {
    hide ApplyPut, Fits, WellFormed;
    assert PutAll(ApplyPut(db, r.body), [r][1..]) == ApplyPut(db, r.body);
  }

  /** Where replay stands after the PUTs of `bodies`, numbered above `lsn`. */
  function ProgressAfter(at: Progress, lsn: nat, bodies: seq<bytes>): Progress
    requires AllWellFormed(bodies)
  {
    var n := |RecsOf(lsn, bodies)|;
    Progress(Exec(at.db, bodies), if n == 0 then at.highest else lsn + n)
  }

  lemma AbsorbRecs(snapLsn: nat, at: Progress, lsn: nat, bodies: seq<bytes>)
    requires Loggables(lsn, bodies) && snapLsn <= lsn && at.highest <= lsn
    ensures AllLoggable(RecsOf(lsn, bodies))
    ensures Absorb(RecsOf(lsn, bodies), snapLsn, at) == ProgressAfter(at, lsn, bodies)
  {
    hide RecsOf, Exec, Absorb, Loggable, WellFormed;
    RecsLoggable(lsn, bodies);
    RecsNumbered(lsn, bodies);
    AbsorbAbove(RecsOf(lsn, bodies), snapLsn, at);
    ExecIsPutAll(at.db, lsn, bodies);
  }

  // ---- Any split into batches ----

  ghost predicate BatchesOk(batches: seq<seq<bytes>>) {
    forall i :: 0 <= i < |batches| ==> AllWellFormed(batches[i])
  }

  /** The bytes stage 3 writes for a sequence of batches, each numbered from where the last one ended. */
  function BatchLog(lsn: nat, batches: seq<seq<bytes>>): bytes
    requires BatchesOk(batches)
    decreases |batches|
  {
    if batches == [] then [] else
    Redo(lsn, batches[0]) + BatchLog(lsn + |RecsOf(lsn, batches[0])|, batches[1..])
  }

  lemma {:induction false} JoinedOk(batches: seq<seq<bytes>>)
    requires BatchesOk(batches)
    ensures AllWellFormed(Joined(batches))
  {
    hide WellFormed;
    if batches != [] {
      JoinedOk(batches[1..]);
      assert AllWellFormed(batches[0]);
    }
  }

  /** The split into batches leaves no trace in the log. */
  lemma {:induction false} SplitIrrelevant(lsn: nat, batches: seq<seq<bytes>>)
    requires BatchesOk(batches)
    ensures AllWellFormed(Joined(batches))
    ensures BatchLog(lsn, batches) == Redo(lsn, Joined(batches))
    decreases |batches|
  {
    hide WellFormed, RecsOf, EncodeLog;
    JoinedOk(batches);
    if batches == [] {
      EmptyRedo(lsn);
    } else {
      var rest := batches[1..];
      var mid := lsn + |RecsOf(lsn, batches[0])|;
      SplitIrrelevant(mid, rest);
      assert AllWellFormed(batches[0]);
      RecsAppend(lsn, batches[0], Joined(rest));
      EncodeLogAppend(RecsOf(lsn, batches[0]), RecsOf(mid, Joined(rest)));
    }
  }

  lemma EmptyRedo(lsn: nat)
    ensures Redo(lsn, []) == []
  {
  }

  /**
   For any requests and any split into batches, `recover` rebuilds from the bytes stage 3 encodes exactly
   the map stage 2 holds, and resumes at an LSN above every one used.
   */
  lemma BatchesRecover(batches: seq<seq<bytes>>)
    requires BatchesOk(batches) && AllWellFormed(Joined(batches)) && Loggables(1, Joined(batches))
    ensures var n := |RecsOf(1, Joined(batches))|;
            var next := if n == 0 then 1 else n + 2;
            RecoverFrom(None, [BatchLog(1, batches)]) == Recovered(Exec(map[], Joined(batches)), next)
  {
    hide WellFormed, RecsOf, EncodeLog, Exec, Absorb, Loggable, Replay;
    var all := Joined(batches);
    var recs := RecsOf(1, all);
    SplitIrrelevant(1, batches);
    AbsorbRecs(0, Progress(map[], 0), 1, all);
    ReplayLog(recs, [], 0, Progress(map[], 0));
    assert EncodeLog(recs) + [] == EncodeLog(recs);
    CrashReplay.ReplayEmpty(0, ProgressAfter(Progress(map[], 0), 1, all));
    CrashReplay.OneSegment(EncodeLog(recs), 0, Progress(map[], 0));
  }

  // ---- Prefixes of the log are prefixes of the history ----

  lemma {:induction false} RecsMonotone(lsn: nat, bodies: seq<bytes>, m: nat, n: nat)
    requires AllWellFormed(bodies) && m <= n <= |bodies|
    ensures |RecsOf(lsn, bodies[..m])| <= |RecsOf(lsn, bodies[..n])|
  {
    hide RecsOf, WellFormed;
    assert bodies[..n] == bodies[..m] + bodies[m..n];
    RecsAppend(lsn, bodies[..m], bodies[m..n]);
  }

  /** Each PUT takes the next LSN. */
  lemma PutCounts(lsn: nat, bodies: seq<bytes>, id: nat)
    requires AllWellFormed(bodies) && id < |bodies| && OpOf(bodies[id]) == Put
    ensures |RecsOf(lsn, bodies[..id + 1])| == |RecsOf(lsn, bodies[..id])| + 1
  {
    hide WellFormed;
    assert bodies[..id + 1][..id] == bodies[..id];
  }

  /** Any `j` records of a log are exactly the PUTs of some prefix of the requests. */
  lemma {:induction false} PrefixFor(lsn: nat, bodies: seq<bytes>, j: nat) returns (m: nat)
    requires AllWellFormed(bodies) && j <= |RecsOf(lsn, bodies)|
    ensures m <= |bodies| && RecsOf(lsn, bodies[..m]) == RecsOf(lsn, bodies)[..j]
  {
    hide WellFormed;
    if j == |RecsOf(lsn, bodies)| {
      m := |bodies|;
      assert bodies[..m] == bodies;
    } else {
      var n := |bodies| - 1;
      m := PrefixFor(lsn, bodies[..n], j);
      assert bodies[..n][..m] == bodies[..m];
    }
  }
}
