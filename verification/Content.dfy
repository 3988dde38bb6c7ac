/**
 What the segment files hold, through every run: the bytes they held at start-up, then the encoded
 batches placed in them, in LSN order and without a gap.
 */
module Content {
  import opened Bytes
  import opened Types
  import opened Wire
  import opened WalFormat
  import opened Recovery
  import opened Stage2
  import opened Acker
  import opened IoLine
  import opened WalCore
  import opened Pipeline
  import opened Batches
  import opened BatchSteps
  import opened Storage
  import opened Durability

  function SpanRecs(s: State, k: nat): seq<Rec>
    requires AllWellFormed(s.hist) && k < |s.spans| && s.spans[k].first + s.spans[k].n <= |s.hist|
  {
    RecsOf(s.spans[k].lo, Slice(s, s.spans[k]))
  }

  ghost predicate SpansFit(s: State) {
    AllWellFormed(s.hist) && |s.locs| <= |s.spans| && forall k :: 0 <= k < |s.spans| ==>
      s.spans[k].first + s.spans[k].n <= |s.hist|
  }

  /** The records of those among the first `n` batches that were placed in file `ino`, in order. */
  function RecsIn(s: State, ino: nat, n: nat): seq<Rec>
    requires SpansFit(s) && n <= |s.locs|
  {
    if n == 0 then [] else
    RecsIn(s, ino, n - 1) + if s.locs[n - 1].ino == ino then SpanRecs(s, n - 1) else []
  }

  ghost predicate FileContent(s: State, i: nat)
    requires SpansFit(s) && i < |s.ker.files|
  {
    var f := s.ker.files[i];
    && f.recs == RecsIn(s, i, |s.locs|)
    && f.want == f.base + EncodeLog(f.recs)
  }

  /** Batch `k` starts exactly where the batches before it in the same file end. */
  ghost predicate GapFree(s: State, k: nat)
    requires SpansFit(s) && k < |s.locs|
  {
    && s.locs[k].ino < |s.ker.files|
    && s.locs[k].off == |s.ker.files[s.locs[k].ino].base| + |EncodeLog(RecsIn(s, s.locs[k].ino, k))|
    && s.locs[k].len == |EncodeLog(SpanRecs(s, k))|
  }

  ghost predicate ContentInv(s: State) {
    && SpansFit(s)
    && (forall i :: 0 <= i < |s.ker.files| ==> FileContent(s, i))
    && (forall k :: 0 <= k < |s.locs| ==> GapFree(s, k))
  }

  // ---- Stability ----

  lemma {:induction false} RecsInStable(s: State, t: State, ino: nat, n: nat)
    requires SpansFit(s) && SpansFit(t) && Extends(s, t) && n <= |s.locs|
    ensures RecsIn(t, ino, n) == RecsIn(s, ino, n)
  {
    hide RecsOf, WellFormed;
    if n > 0 {
      RecsInStable(s, t, ino, n - 1);
      SpanRecsStable(s, t, n - 1);
      assert t.locs[n - 1] == s.locs[n - 1];
    }
  }

  lemma SpanRecsStable(s: State, t: State, k: nat)
    requires SpansFit(s) && SpansFit(t) && Extends(s, t) && k < |s.spans|
    ensures SpanRecs(t, k) == SpanRecs(s, k)
  {
    hide RecsOf, WellFormed;
    assert t.spans[k] == s.spans[k];
    assert Slice(t, t.spans[k]) == Slice(s, s.spans[k]);
  }

  ghost predicate SameContent(f: File, f': File) { f'.base == f.base && f'.recs == f.recs && f'.want == f.want }

  /** Steps that place no batch: the files' plans stay, new files are empty. */
  lemma ContentFrame(s: State, t: State)
    requires ContentInv(s) && Extends(s, t) && SpansFit(t) && t.locs == s.locs && |s.ker.files| <= |t.ker.files|
    requires forall i :: 0 <= i < |s.ker.files| ==> SameContent(s.ker.files[i], t.ker.files[i])
    requires forall i :: |s.ker.files| <= i < |t.ker.files| ==> t.ker.files[i] == File([], [], [], [], [])
    ensures ContentInv(t)
  {
    hide RecsOf, WellFormed, EncodeLog, RecsIn, SpanRecs;
    forall i | 0 <= i < |t.ker.files| ensures FileContent(t, i) {
      RecsInStable(s, t, i, |s.locs|);
      if i < |s.ker.files| {
        assert FileContent(s, i);
      } else {
        NewFileEmpty(s, i, |s.locs|);
        assert EncodeLog([]) == [] by { EmptyLog(); }
      }
    }
    forall k | 0 <= k < |t.locs| ensures GapFree(t, k) {
      assert GapFree(s, k);
      RecsInStable(s, t, s.locs[k].ino, k);
      SpanRecsStable(s, t, k);
    }
  }

  lemma EmptyLog()
    ensures EncodeLog([]) == []
  {
  }

  lemma {:induction false} NewFileEmpty(s: State, ino: nat, n: nat)
    requires ContentInv(s) && ino >= |s.ker.files| && n <= |s.locs|
    ensures RecsIn(s, ino, n) == []
  {
    hide SpanRecs, FileContent;
    if n > 0 {
      NewFileEmpty(s, ino, n - 1);
      assert GapFree(s, n - 1);
    }
  }

  // ---- Ingestion ----

  lemma ContentReceive(s: State)
    requires IoInv(s) && BatchInv(s) && ContentInv(s) && CanReceive(s) && s.chan[0].WriteMsg?
    ensures ContentInv(ReceiveWrite(s))
  {
    hide BatchInv, LineInv, PlanOk, ResultsOk, RecsOf, WellFormed, EncodeLog, RecsIn, LineOf;
    AssertionsHold(s);
    BatchBasics(s);
    IngestExtends(s);
    IngestLocs(s);
    var t := ReceiveWrite(s);
    var k := |s.locs|;
    BatchHi(s, s.chan[0].batch, AckPoint.Applied);
    assert SpansFit(t);
    var b := Encoded(s.chan[0].batch);
    SpanRecsStable(s, t, k);
    assert RecsOf(b.lo, Bodies(b.items)) == SpanRecs(s, k);
    assert b.out == [] + EncodeLog(SpanRecs(s, k)) == EncodeLog(SpanRecs(s, k));
    IngestContent(s, t, SpanRecs(s, k));
  }

  lemma IngestContent(s: State, t: State, recs: seq<Rec>)
    requires ContentInv(s) && FilesOk(s) && Extends(s, t) && SpansFit(t) && |t.locs| == |s.locs| + 1
    requires recs == SpanRecs(t, |s.locs|)
    requires t.locs[|s.locs|] == Loc(s.eng.seg.ino, s.eng.seg.offset, |EncodeLog(recs)|)
    requires t.ker.files == s.ker.files[s.eng.seg.ino := Grown(Active(s), recs, EncodeLog(recs))]
    ensures ContentInv(t)
  {
    hide RecsOf, WellFormed, EncodeLog, SpanRecs;
    var k, a := |s.locs|, s.eng.seg.ino;
    forall i | 0 <= i < |t.ker.files| ensures FileContent(t, i) {
      assert FileContent(s, i);
      RecsInStable(s, t, i, k);
      if i == a {
        var f := Active(s);
        EncodeLogAppend(f.recs, recs);
        Assoc(f.base, EncodeLog(f.recs), EncodeLog(recs));
      } else {
        assert RecsIn(t, i, k + 1) == RecsIn(t, i, k) + [];
      }
    }
    forall j | 0 <= j < |t.locs| ensures GapFree(t, j) {
      if j < k {
        assert GapFree(s, j);
        RecsInStable(s, t, s.locs[j].ino, j);
        SpanRecsStable(s, t, j);
      } else {
        assert FileContent(s, a);
        RecsInStable(s, t, a, k);
      }
    }
  }

  lemma ContentInit(s: State)
    requires Init(s)
    ensures ContentInv(s)
  {
    hide LineOf;
    forall i | 0 <= i < |s.ker.files| ensures FileContent(s, i) {
      assert Settled(s.ker.files[i]);
      assert RecsIn(s, i, 0) == [] && EncodeLog([]) == [];
    }
  }

  lemma ContentStep(s: State, step: Step)
    requires IoInv(s) && BatchInv(s) && ContentInv(s) && Enabled(s, step)
    ensures ContentInv(Next(s, step))
  {
    hide BatchInv, IoInv, ContentInv, LineOf, ReceiveWrite, ReapHead, Rotate, TakeBatch, Names.Sorted, WriteAt;
    var t := Next(s, step);
    BatchBasics(s);
    match step
    case Take(reqs) => ContentTake(s, reqs);
    case Receive => if s.chan[0].WriteMsg? { ContentReceive(s); } else { ContentFrame(s, t); }
    case ReapCqe => ContentReap(s);
    case FinishRotate => ContentRotate(s);
    case _ => ContentFrame(s, t);
  }

  lemma ContentTake(s: State, reqs: seq<Req>)
    requires BatchInv(s) && ContentInv(s) && CanTake(s, reqs)
    ensures ContentInv(TakeBatch(s, reqs))
  {
    hide ChanOk, WritesOk, WaitersOk, ApplyRequests, Sent, Exec, RecsOf, Remaining, FileContent, GapFree, LineOf;
    var t := TakeBatch(s, reqs);
    BatchBasics(s);
    TakeHistory(s, reqs);
    TakeSpans(s, reqs);
    assert SpansFit(t) by {
      forall k | 0 <= k < |t.spans| ensures t.spans[k].first + t.spans[k].n <= |t.hist| { SpanFits(t, t.spans[k]); }
    }
    ContentFrame(s, t);
  }

  lemma ContentReap(s: State)
    requires BatchInv(s) && ContentInv(s) && CanReap(s)
    ensures ContentInv(ReapHead(s))
  {
    hide BatchInv, ContentInv, Reap, Raise, RaiseAll;
    BatchBasics(s);
    ReapMode(s);
    ContentFrame(s, ReapHead(s));
  }

  lemma ReapMode(s: State)
    requires CanReap(s)
    ensures ReapHead(s).eng.mode == s.eng.mode && ReapHead(s).eng.seg == s.eng.seg && ReapHead(s).eng.last == s.eng.last
    ensures ReapHead(s).ker.files == s.ker.files && ReapHead(s).ker.dir == s.ker.dir
  {
    hide Raise, RaiseAll, Sent, SentAll, Remaining, IsSettled, Freed;
  }

  lemma ContentRotate(s: State)
    requires BatchInv(s) && ContentInv(s) && CanFinishRotate(s)
    ensures ContentInv(Rotate(s))
  {
    hide BatchInv, ContentInv, SentAll, RaiseAll;
    BatchBasics(s);
    ContentFrame(s, Rotate(s));
  }
}
