/** Every step of the pipeline keeps `BatchInv`. */
module BatchSteps {
  import opened Bytes
  import opened Types
  import opened Wire
  import opened Stage2
  import opened Acker
  import opened IoWork
  import opened IoLine
  import opened WalCore
  import opened Pipeline
  import opened LineSteps
  import opened Batches

  lemma BatchInit(s: State)
    requires Init(s)
    ensures BatchInv(s)
  {
    hide HistoryOk, SpansOk, WatermarkOk, ChanOk, WritesOk, DistinctWrites, WaitersOk, PoolOk, Init;
    HistoryInit(s);
    PoolInit(s);
    OutstandingInit(s);
  }

  lemma HistoryInit(s: State)
    requires Init(s)
    ensures HistoryOk(s) && SpansOk(s) && WatermarkOk(s)
  {
    hide SpanOk, LineOf, WellFormed;
    assert Exec(s.db0, []) == s.db0 && RecsOf(s.start, []) == [];
  }

  lemma PoolInit(s: State)
    requires Init(s)
    ensures PoolOk(s)
  {
    hide LineOf;
  }

  lemma OutstandingInit(s: State)
    requires Init(s) && HistoryOk(s)
    ensures ChanOk(s) && WritesOk(s) && DistinctWrites(Line(s)) && WaitersOk(s)
  {
    hide BatchAt, Ingested, WriteOk, HistoryOk, LineOf;
    HistoryBasics(s);
    assert WritesIn([]) == [];
    assert |Line(s)| == 0;
  }

  // ---- The writes of an edited line are those of the line before ----

  predicate SameWrite(x: Slot, y: Slot) {
    x.work.Write? && y.work.Write? && x.work.batch == y.work.batch && x.work.offset == y.work.offset
  }

  ghost predicate Among(x: Slot, line: seq<Slot>) { exists j :: 0 <= j < |line| && SameWrite(x, line[j]) }

  /** Each write of `line'` is a write of `line`, and no two are the same one. */
  ghost predicate Inherits(line': seq<Slot>, line: seq<Slot>) {
    && (forall i :: 0 <= i < |line'| && line'[i].work.Write? ==> Among(line'[i], line))
    && (DistinctWrites(line) ==> DistinctWrites(line'))
  }

  lemma InheritsMoved(line: seq<Slot>, c: nat, m: nat, x: Slot)
    requires c <= m < |line| && x.work == line[m].work
    ensures Inherits(Moved(line, c, m, x), line)
  {
    hide Moved;
    var line' := Moved(line, c, m, x);
    forall i | 0 <= i < |line'| && line'[i].work.Write? ensures Among(line'[i], line) {
      assert SameWrite(line'[i], line[Origin(c, m, i)]);
    }
    if DistinctWrites(line) {
      forall i, j | 0 <= i < j < |line'| && line'[i].work.Write? && line'[j].work.Write?
        ensures line'[i].work.batch.no != line'[j].work.batch.no
      {
        var a, b := Origin(c, m, i), Origin(c, m, j);
        assert SameWrite(line'[i], line[a]) && SameWrite(line'[j], line[b]);
        assert a != b;
      }
    }
  }

  lemma InheritsRequeued(line: seq<Slot>, q: nat)
    requires 0 <= q < |line| && line[0].work.Write?
    ensures Inherits(Requeued(line, q), line)
  {
    hide Requeued;
    var line' := Requeued(line, q);
    forall i | 0 <= i < |line'| && line'[i].work.Write? ensures Among(line'[i], line) {
      assert SameWrite(line'[i], line[Fore(q, i)]);
    }
    if DistinctWrites(line) {
      forall i, j | 0 <= i < j < |line'| && line'[i].work.Write? && line'[j].work.Write?
        ensures line'[i].work.batch.no != line'[j].work.batch.no
      {
        var a, b := Fore(q, i), Fore(q, j);
        assert SameWrite(line'[i], line[a]) && SameWrite(line'[j], line[b]);
        assert a != b;
      }
    }
  }

  lemma InheritsTail(line: seq<Slot>)
    requires line != []
    ensures Inherits(line[1..], line)
  {
    forall i | 0 <= i < |line[1..]| && line[1..][i].work.Write? ensures Among(line[1..][i], line) {
      assert SameWrite(line[1..][i], line[i + 1]);
    }
  }

  lemma InheritsSelf(line: seq<Slot>)
    ensures Inherits(line, line)
  {
    forall i | 0 <= i < |line| && line[i].work.Write? ensures Among(line[i], line) {
      assert SameWrite(line[i], line[i]);
    }
  }

  /** Appending anything but writes adds no write. */
  lemma InheritsAppend(line: seq<Slot>, more: seq<Slot>)
    requires forall i :: 0 <= i < |more| ==> !more[i].work.Write?
    ensures Inherits(line + more, line)
  {
    var line' := line + more;
    forall i | 0 <= i < |line'| && line'[i].work.Write? ensures Among(line'[i], line) {
      assert SameWrite(line'[i], line[i]);
    }
    assert forall i :: 0 <= i < |line'| && line'[i].work.Write? ==> i < |line| && line'[i] == line[i];
  }

  // ---- Frames ----

  lemma WriteStable(s: State, t: State, w: Work, w': Work)
    requires HistoryOk(s) && Extends(s, t) && w.Write? && WriteOk(s, w)
    requires w'.Write? && w'.batch == w.batch && w'.offset == w.offset
    requires t.eng.seg.ino == s.eng.seg.ino
    requires LevelKept(s, t, w.batch)
    ensures WriteOk(t, w')
  {
    hide BatchAt, HistoryOk, WellFormed, Redo, SpanOk, LevelKept;
    KeptStable(s, t, w.batch, AckPoint.Applied);
    IngestedStable(s, t, w.batch);
  }

  lemma IngestedStable(s: State, t: State, b: Batch)
    requires AllWellFormed(s.hist) && Extends(s, t) && Ingested(s, b) && t.eng.seg.ino == s.eng.seg.ino
    ensures Ingested(t, b)
  {
    hide Redo, WellFormed;
    assert t.spans[b.no] == s.spans[b.no] && t.locs[b.no] == s.locs[b.no];
    assert Slice(t, t.spans[b.no]) == Slice(s, s.spans[b.no]);
  }

  /** The books are those of `s`, word for word. */
  ghost predicate SameBooks(s: State, t: State) {
    && t.start == s.start && t.db0 == s.db0 && t.hist == s.hist && t.conns == s.conns
    && t.spans == s.spans && t.locs == s.locs && t.db == s.db && t.lsn == s.lsn
    && t.eng.mode == s.eng.mode && t.eng.last == s.eng.last
  }

  /** Steps that only rearrange the line. */
  lemma LineOnly(s: State, t: State)
    requires BatchInv(s) && SameBooks(s, t) && t.reach == s.reach && t.eng.seg.ino == s.eng.seg.ino
    requires t.chan == s.chan && t.eng.awaiting == s.eng.awaiting && t.pool == s.pool && t.held == s.held
    requires Inherits(Line(t), Line(s))
    ensures BatchInv(t)
  {
    hide LineOf, Exec, RecsOf, Redo, WellFormed;
    BooksFrame(s, t);
    WritesFrame(s, t);
    ChanFrame(s, t);
    WaitersFrame(s, t);
  }

  lemma BooksFrame(s: State, t: State)
    requires HistoryOk(s) && SpansOk(s) && WatermarkOk(s) && SameBooks(s, t) && |t.reach| == |s.reach|
    ensures HistoryOk(t) && SpansOk(t) && WatermarkOk(t) && Extends(s, t)
  {
    hide Exec, RecsOf, WellFormed;
    forall k | 0 <= k < |t.spans| ensures SpanOk(t, t.spans[k]) {
      SpanStable(s, t, s.spans[k]);
    }
  }

  lemma WritesFrame(s: State, t: State)
    requires HistoryOk(s) && WritesOk(s) && Extends(s, t) && t.eng.seg.ino == s.eng.seg.ino
    requires Inherits(Line(t), Line(s))
    requires forall i :: 0 <= i < |Line(t)| && Line(t)[i].work.Write? ==> LevelKept(s, t, Line(t)[i].work.batch)
    ensures WritesOk(t)
  {
    hide WriteOk, LineOf, HistoryOk, WellFormed, LevelKept;
    assert AllWellFormed(s.hist) && |s.conns| == |s.hist| && |s.reach| == |s.hist| by { HistoryBasics(s); }
    forall i | 0 <= i < |Line(t)| && Line(t)[i].work.Write? ensures WriteOk(t, Line(t)[i].work) {
      assert Among(Line(t)[i], Line(s));
      var j :| 0 <= j < |Line(s)| && SameWrite(Line(t)[i], Line(s)[j]);
      WriteStable(s, t, Line(s)[j].work, Line(t)[i].work);
    }
  }

  ghost predicate LevelKept(s: State, t: State, b: Batch) {
    b.no < |s.spans| && forall id :: InSpan(s.spans[b.no], id) && 0 <= id < |s.reach| && id < |t.reach| ==>
      t.reach[id] == s.reach[id]
  }

  lemma ChanFrame(s: State, t: State)
    requires HistoryOk(s) && ChanOk(s) && Extends(s, t) && |t.locs| == |s.locs| && |t.spans| == |s.spans|
    requires WritesIn(t.chan) == WritesIn(s.chan)
    requires forall i :: 0 <= i < |WritesIn(s.chan)| ==> LevelKept(s, t, WritesIn(s.chan)[i])
    ensures ChanOk(t)
  {
    hide BatchAt, HistoryOk, WellFormed, WritesIn;
    assert AllWellFormed(s.hist) && |s.conns| == |s.hist| && |s.reach| == |s.hist| by { HistoryBasics(s); }
    forall i | 0 <= i < |WritesIn(s.chan)| ensures BatchAt(t, WritesIn(s.chan)[i], AckPoint.Applied) {
      KeptStable(s, t, WritesIn(s.chan)[i], AckPoint.Applied);
    }
  }

  lemma KeptStable(s: State, t: State, b: Batch, reached: AckPoint)
    requires HistoryOk(s) && Extends(s, t) && BatchAt(s, b, reached) && LevelKept(s, t, b)
    ensures BatchAt(t, b, reached)
  {
    hide HistoryOk, WellFormed, Expected;
    assert AllWellFormed(s.hist) && |s.conns| == |s.hist| && |s.reach| == |s.hist| by { HistoryBasics(s); }
    SpanFits(s, s.spans[b.no]);
    BatchStable(s, t, b, reached);
  }

  lemma WaitersFrame(s: State, t: State)
    requires HistoryOk(s) && WaitersOk(s) && Extends(s, t) && t.eng.seg.ino == s.eng.seg.ino
    requires t.eng.awaiting == s.eng.awaiting
    requires forall a :: 0 <= a < |s.eng.awaiting| ==> LevelKept(s, t, s.eng.awaiting[a])
    ensures WaitersOk(t)
  {
    hide BatchAt, Ingested, HistoryOk, WellFormed;
    assert AllWellFormed(s.hist) && |s.conns| == |s.hist| && |s.reach| == |s.hist| by { HistoryBasics(s); }
    forall a | 0 <= a < |s.eng.awaiting|
      ensures BatchAt(t, s.eng.awaiting[a], AckPoint.Written) && Ingested(t, s.eng.awaiting[a])
    {
      KeptStable(s, t, s.eng.awaiting[a], AckPoint.Written);
      IngestedStable(s, t, s.eng.awaiting[a]);
    }
  }

  // ---- Stage 2 takes a batch ----

  lemma {:induction false} WritesSnoc(chan: seq<WalMsg>, m: WalMsg)
    ensures WritesIn(chan + [m]) == WritesIn(chan) + if m.WriteMsg? then [m.batch] else []
  {
    if chan == [] {
      assert chan + [m] == [m];
      assert WritesIn([m][1..]) == [];
    } else {
      WritesSnoc(chan[1..], m);
      assert (chan + [m])[1..] == chan[1..] + [m] && (chan + [m])[0] == chan[0];
      Assoc(if chan[0].WriteMsg? then [chan[0].batch] else [],
            WritesIn(chan[1..]),
            if m.WriteMsg? then [m.batch] else []);
    }
  }

  lemma TakenWellFormed(db: Kv, first: nat, reqs: seq<Req>)
    requires AllWellFormed(Datas(reqs))
    ensures ItemsWellFormed(ApplyRequests(db, first, reqs))
  {
    hide ApplyRequests, WellFormed, Exec, RespTo;
    var items := ApplyRequests(db, first, reqs);
    forall i | 0 <= i < |items| ensures WellFormed(items[i].data) {
      assert items[i].data == Datas(reqs)[i];
    }
  }

  /** What taking requests does to everything but the batch itself. */
  lemma TakeFields(s: State, reqs: seq<Req>)
    requires CanTake(s, reqs)
    ensures ItemsWellFormed(ApplyRequests(s.db, |s.hist|, reqs))
    ensures var t := TakeBatch(s, reqs);
            && t.hist == s.hist + Datas(reqs) && t.conns == s.conns + Conns(reqs)
            && t.reach == s.reach + seq(|reqs|, _ => AckPoint.Applied)
            && t.replies == s.replies + Sent(s.eng.mode, ApplyRequests(s.db, |s.hist|, reqs), AckPoint.Applied)
            && t.start == s.start && t.db0 == s.db0 && t.locs == s.locs && t.eng == s.eng && t.ker == s.ker
  {
    hide TakenBatch, ApplyRequests, WellFormed, Sent;
    TakenWellFormed(s.db, |s.hist|, reqs);
  }

  lemma TakeHistory(s: State, reqs: seq<Req>)
    requires HistoryOk(s) && CanTake(s, reqs)
    ensures var t := TakeBatch(s, reqs); HistoryOk(t) && Extends(s, t)
  {
    hide Exec, RecsOf, WellFormed, ApplyRequests, Sent, Remaining;
    var t := TakeBatch(s, reqs);
    ExecAppend(s.db0, s.hist, Datas(reqs));
    RecsAppend(s.start, s.hist, Datas(reqs));
    forall i | 0 <= i < |t.hist| ensures WellFormed(t.hist[i]) && |t.hist[i]| <= MAX_BODY {
      if i >= |s.hist| { assert t.hist[i] == Datas(reqs)[i - |s.hist|]; }
    }
  }

  lemma TakeSpans(s: State, reqs: seq<Req>)
    requires HistoryOk(s) && SpansOk(s) && CanTake(s, reqs)
    ensures var t := TakeBatch(s, reqs); AllWellFormed(t.hist) && SpansOk(t)
  {
    hide Exec, RecsOf, WellFormed, ApplyRequests, Sent, Remaining, HistoryOk, SpansOk, SpanOk, TakeBatch;
    var t := TakeBatch(s, reqs);
    TakeHistory(s, reqs);
    assert AllWellFormed(s.hist) && s.lsn == s.start + |RecsOf(s.start, s.hist)| by { HistoryLsn(s); }
    NewSpan(s, reqs);
    if |t.spans| > |s.spans| { assert t.spans[..|t.spans| - 1] == s.spans; }
    SpansGrow(s, t);
  }

  /** The batch just filled, if it goes to the WAL. */
  lemma NewSpan(s: State, reqs: seq<Req>)
    requires HistoryOk(s) && CanTake(s, reqs)
    ensures var t, n := TakeBatch(s, reqs), |RecsOf(s.lsn, Datas(reqs))|;
            && AllWellFormed(t.hist) && t.hist == s.hist + Datas(reqs) && t.start == s.start && t.lsn == s.lsn + n
            && t.spans == s.spans + (if n > 0 then [Span(|s.hist|, |reqs|, s.lsn, t.lsn)] else [])
            && (n > 0 ==> SpanOk(t, Span(|s.hist|, |reqs|, s.lsn, t.lsn)))
  {
    hide Exec, RecsOf, WellFormed, ApplyRequests, Sent, Remaining, HistoryOk;
    var t := TakeBatch(s, reqs);
    TakeHistory(s, reqs);
    HistoryLsn(s);
    assert t.hist[..|s.hist|] == s.hist;
    assert t.hist[|s.hist|..|s.hist| + |reqs|] == Datas(reqs);
  }

  /** `t` has at most one batch more than `s`, taken after all of them. */
  ghost predicate OneMoreSpan(s: State, t: State)
    requires AllWellFormed(t.hist)
  {
    || (t.spans == s.spans && t.lsn == s.lsn)
    || (t.spans != [] && t.spans[..|t.spans| - 1] == s.spans && NextSpan(s, t, t.spans[|t.spans| - 1]))
  }

  ghost predicate NextSpan(s: State, t: State, sp: Span)
    requires AllWellFormed(t.hist)
  {
    SpanOk(t, sp) && sp.first == |s.hist| && sp.lo == s.lsn && sp.hi == t.lsn
  }

  lemma SpansGrow(s: State, t: State)
    requires AllWellFormed(s.hist) && SpansOk(s) && AllWellFormed(t.hist) && s.hist <= t.hist && t.start == s.start
    requires OneMoreSpan(s, t)
    ensures SpansOk(t)
  {
    hide RecsOf, WellFormed, SpanOk;
    forall k | 0 <= k < |s.spans| ensures SpanOk(t, s.spans[k]) && s.spans[k].first + s.spans[k].n <= |s.hist| {
      SpanStable(s, t, s.spans[k]);
      SpanFits(s, s.spans[k]);
    }
    assert forall k :: 0 <= k < |s.spans| ==> t.spans[k] == s.spans[k];
  }

  lemma HistoryLsn(s: State)
    requires HistoryOk(s)
    ensures AllWellFormed(s.hist) && s.lsn == s.start + |RecsOf(s.start, s.hist)|
  {
  }

  /** Each request of the new batch carries what a sequential map would have answered it. */
  lemma TakenItem(s: State, reqs: seq<Req>, i: nat)
    requires HistoryOk(s) && CanTake(s, reqs) && i < |reqs|
    ensures var t := TakeBatch(s, reqs);
            && AllWellFormed(t.hist) && |t.conns| == |t.hist| && |TakenBatch(s, reqs).items| == |reqs|
            && TakenBatch(s, reqs).items[i] == Expected(t, |s.hist| + i, AckPoint.Applied)
  {
    hide Exec, RecsOf, WellFormed, Due, RespTo, Sent, Remaining, ApplyRequests;
    var t := TakeBatch(s, reqs);
    TakeHistory(s, reqs);
    var id := |s.hist| + i;
    var before := Datas(reqs)[..i];
    assert t.hist[..id] == s.hist + before;
    ExecAppend(s.db0, s.hist, before);
    assert t.hist[id] == reqs[i].data && t.conns[id] == reqs[i].conn;
  }

  lemma TakenBatchAt(s: State, reqs: seq<Req>)
    requires HistoryOk(s) && SpansOk(s) && CanTake(s, reqs) && TakenBatch(s, reqs).HasWalWork()
    ensures var t := TakeBatch(s, reqs);
            && AllWellFormed(t.hist) && |t.conns| == |t.hist| && |t.reach| == |t.hist|
            && BatchAt(t, TakenBatch(s, reqs), AckPoint.Applied)
  {
    hide Exec, RecsOf, WellFormed, Expected, Sent, SpanOk, Remaining, ApplyRequests;
    var t := TakeBatch(s, reqs);
    var b := TakenBatch(s, reqs);
    TakeHistory(s, reqs);
    TakeSpans(s, reqs);
    assert SpanOk(t, t.spans[b.no]);
    forall i | 0 <= i < |reqs| ensures b.items[i] == Expected(t, |s.hist| + i, AckPoint.Applied) {
      TakenItem(s, reqs, i);
    }
  }

  lemma BatchTake(s: State, reqs: seq<Req>)
    requires BatchInv(s) && CanTake(s, reqs)
    ensures BatchInv(TakeBatch(s, reqs))
  {
    hide HistoryOk, SpansOk, ChanOk, WritesOk, WaitersOk, DistinctWrites, LineOf, TakeBatch, WellFormed, Sent,
         ApplyRequests, LevelKept;
    var t := TakeBatch(s, reqs);
    TakeHistory(s, reqs);
    HistoryBasics(t);
    TakeFields(s, reqs);
    TakeSpans(s, reqs);
    TakeWrites(s, t, reqs);
    TakeWaiters(s, t, reqs);
    BatchTakeChan(s, reqs);
    TakeRest(s, reqs);
  }

  lemma TakeWrites(s: State, t: State, reqs: seq<Req>)
    requires HistoryOk(s) && WritesOk(s) && DistinctWrites(Line(s)) && CanTake(s, reqs) && t == TakeBatch(s, reqs)
    requires Extends(s, t)
    requires t.eng == s.eng && t.ker == s.ker
    ensures WritesOk(t) && DistinctWrites(Line(t))
  {
    hide HistoryOk, DistinctWrites, LineOf, TakeBatch, WellFormed, BatchAt, Ingested, LevelKept, Inherits;
    HistoryBasics(s);
    InheritsSelf(Line(s));
    TakeKept(s, reqs);
    forall i | 0 <= i < |Line(t)| && Line(t)[i].work.Write? ensures LevelKept(s, t, Line(t)[i].work.batch) {
      assert WriteOk(s, Line(s)[i].work);
      BatchNo(s, Line(s)[i].work.batch, AckPoint.Applied);
    }
    assert WritesOk(t) by { hide WritesOk; WritesFrame(s, t); }
    InheritsDistinct(Line(s), Line(t));
  }

  lemma InheritsDistinct(line: seq<Slot>, line': seq<Slot>)
    requires Inherits(line', line) && DistinctWrites(line)
    ensures DistinctWrites(line')
  {
  }

  lemma TakeWaiters(s: State, t: State, reqs: seq<Req>)
    requires HistoryOk(s) && WaitersOk(s) && CanTake(s, reqs) && t == TakeBatch(s, reqs) && Extends(s, t)
    requires t.eng == s.eng
    ensures WaitersOk(t)
  {
    hide HistoryOk, TakeBatch, WellFormed, BatchAt, Ingested, LevelKept;
    HistoryBasics(s);
    TakeKept(s, reqs);
    forall a | 0 <= a < |s.eng.awaiting| ensures LevelKept(s, t, s.eng.awaiting[a]) {
      BatchNo(s, s.eng.awaiting[a], AckPoint.Written);
    }
    WaitersFrame(s, t);
  }

  /** Buffers at rest stay cleared, and stage 3's watermark stays. */
  lemma TakeRest(s: State, reqs: seq<Req>)
    requires WatermarkOk(s) && PoolOk(s) && CanTake(s, reqs)
    ensures WatermarkOk(TakeBatch(s, reqs)) && PoolOk(TakeBatch(s, reqs))
  {
    hide Exec, RecsOf, WellFormed, Sent, ApplyRequests, Remaining;
  }

  lemma BatchTakeChan(s: State, reqs: seq<Req>)
    requires BatchInv(s) && CanTake(s, reqs)
    ensures var t := TakeBatch(s, reqs);
            AllWellFormed(t.hist) && |t.conns| == |t.hist| && |t.reach| == |t.hist| && ChanOk(t)
  {
    hide Exec, RecsOf, WellFormed, Sent, LineOf, Redo, WritesIn, ApplyRequests, SpanOk, Expected, WritesOk, WaitersOk;
    var t := TakeBatch(s, reqs);
    var b := TakenBatch(s, reqs);
    TakeHistory(s, reqs);
    TakeKept(s, reqs);
    var mid := t.(chan := s.chan, spans := s.spans);
    assert Extends(s, mid);
    ChanFrame(s, mid);
    if b.HasWalWork() {
      TakenBatchAt(s, reqs);
      WritesSnoc(s.chan, WriteMsg(b));
      TakeChan(mid, t, b);
    }
  }

  /** Old batches keep their level when new requests arrive. */
  lemma TakeKept(s: State, reqs: seq<Req>)
    requires HistoryOk(s) && CanTake(s, reqs)
    ensures forall b: Batch :: b.no < |s.spans| ==> LevelKept(s, TakeBatch(s, reqs), b)
  {
    hide Exec, RecsOf, WellFormed, Sent, ApplyRequests;
  }

  lemma TakeChan(mid: State, t: State, b: Batch)
    requires HistoryOk(mid) && ChanOk(mid) && Extends(mid, t) && t.reach == mid.reach && t.locs == mid.locs
    requires |t.spans| == |mid.spans| + 1 && b.no == |mid.spans| && b.out == []
    requires WritesIn(t.chan) == WritesIn(mid.chan) + [b]
    requires BatchAt(t, b, AckPoint.Applied)
    ensures ChanOk(t)
  {
    hide BatchAt, HistoryOk, WellFormed, WritesIn;
    assert AllWellFormed(mid.hist) && |mid.conns| == |mid.hist| && |mid.reach| == |mid.hist| by { HistoryBasics(mid); }
    var ws := WritesIn(mid.chan);
    forall i | 0 <= i < |ws| ensures BatchAt(t, ws[i], AckPoint.Applied) {
      BatchNo(mid, ws[i], AckPoint.Applied);
      KeptStable(mid, t, ws[i], AckPoint.Applied);
    }
  }

  lemma BatchNo(s: State, b: Batch, reached: AckPoint)
    requires AllWellFormed(s.hist) && |s.conns| == |s.hist| && |s.reach| == |s.hist| && BatchAt(s, b, reached)
    ensures b.no < |s.spans|
  {
  }

  // ---- Stage 3 ingests a batch ----

  lemma ReceiveBooks(s: State)
    requires BatchInv(s) && s.chan != [] && s.chan[0].WriteMsg? && s.eng.seg.ino < |s.ker.files|
    requires ItemsWellFormed(s.chan[0].batch.items)
    ensures var t := ReceiveWrite(s);
            && HistoryOk(t) && SpansOk(t) && WatermarkOk(t) && Extends(s, t)
            && t.reach == s.reach && t.eng.seg.ino == s.eng.seg.ino
  {
    hide Exec, RecsOf, WellFormed, Redo, LineOf, WritesIn, BatchAt, WritesOk, WaitersOk, Grown, SpanOk;
    AssertionsHold(s);
    var t := ReceiveWrite(s);
    BatchHi(s, s.chan[0].batch, AckPoint.Applied);
    SpansSame(s, t);
  }

  lemma SpansSame(s: State, t: State)
    requires AllWellFormed(s.hist) && SpansOk(s) && t.hist == s.hist && t.spans == s.spans && t.start == s.start
    requires t.lsn == s.lsn
    ensures SpansOk(t)
  {
    hide RecsOf, WellFormed, SpanOk;
    forall k | 0 <= k < |t.spans| ensures SpanOk(t, t.spans[k]) {
      SpanStable(s, t, s.spans[k]);
    }
  }

  lemma BatchHi(s: State, b: Batch, reached: AckPoint)
    requires AllWellFormed(s.hist) && |s.conns| == |s.hist| && |s.reach| == |s.hist| && BatchAt(s, b, reached)
    ensures b.no < |s.spans| && b.hi == s.spans[b.no].hi && b.lo == s.spans[b.no].lo && SpanOk(s, s.spans[b.no])
  {
  }

  lemma ReceiveNew(s: State)
    requires BatchInv(s) && s.chan != [] && s.chan[0].WriteMsg? && s.eng.seg.ino < |s.ker.files|
    requires ItemsWellFormed(s.chan[0].batch.items)
    ensures var t := ReceiveWrite(s);
            && AllWellFormed(t.hist) && |t.conns| == |t.hist| && |t.reach| == |t.hist|
            && WriteOk(t, Write(Encoded(s.chan[0].batch), s.eng.seg.offset, 0))
  {
    hide Exec, RecsOf, WellFormed, Redo, LineOf, WritesIn, WritesOk, WaitersOk, Grown, SpanOk, Expected;
    AssertionsHold(s);
    ReceiveBooks(s);
    var t := ReceiveWrite(s);
    var b := s.chan[0].batch;
    BatchHi(s, b, AckPoint.Applied);
    SpanFits(s, s.spans[b.no]);
    KeptStable(s, t, b, AckPoint.Applied);
    assert BatchAt(t, Encoded(b), AckPoint.Applied);
    assert Encoded(b).out == [] + Redo(b.lo, Slice(s, s.spans[b.no])) == Redo(b.lo, Slice(s, s.spans[b.no]));
  }

  lemma BatchReceiveWrite(s: State)
    requires BatchInv(s) && s.chan != [] && s.chan[0].WriteMsg? && s.eng.seg.ino < |s.ker.files|
    requires ItemsWellFormed(s.chan[0].batch.items)
    ensures BatchInv(ReceiveWrite(s))
  {
    hide Exec, RecsOf, WellFormed, Redo, LineOf, Grown, SpanOk, Expected, HistoryOk, SpansOk, BatchAt;
    ReceiveBooks(s);
    ReceiveNew(s);
    var t := ReceiveWrite(s);
    var w := Write(Encoded(s.chan[0].batch), s.eng.seg.offset, 0);
    LineAppend(s.ker.cq, s.ker.ops, s.eng.pending, w);
    assert Line(t) == Line(s) + [SlotOf(w)];
    AssertionsHold(s);
    HistoryBasics(s);
    forall i | 0 <= i < |Line(t)| && Line(t)[i].work.Write?
      ensures WriteOk(t, Line(t)[i].work)
      ensures i < |Line(s)| ==> Line(t)[i].work.batch.no < |s.locs|
    {
      if i < |Line(s)| {
        assert Line(t)[i] == Line(s)[i];
        BatchNo(s, Line(s)[i].work.batch, AckPoint.Applied);
        WriteStable(s, t, Line(s)[i].work, Line(s)[i].work);
      }
    }
    WaitersKept(s);
    WaitersFrame(s, t);
    ReceiveChan(s, t);
  }

  lemma WaitersKept(s: State)
    requires AllWellFormed(s.hist) && |s.conns| == |s.hist| && |s.reach| == |s.hist| && WaitersOk(s)
    ensures forall a :: 0 <= a < |s.eng.awaiting| ==> s.eng.awaiting[a].no < |s.spans|
  {
  }

  lemma ReceiveChan(s: State, t: State)
    requires HistoryOk(s) && ChanOk(s) && Extends(s, t) && t.reach == s.reach && t.spans == s.spans
    requires s.chan != [] && s.chan[0].WriteMsg? && t.chan == s.chan[1..] && |t.locs| == |s.locs| + 1
    ensures ChanOk(t)
  {
    hide BatchAt, HistoryOk, WellFormed;
    HistoryBasics(s);
    var ws := WritesIn(s.chan);
    assert ws == [s.chan[0].batch] + WritesIn(t.chan);
    forall i | 0 <= i < |WritesIn(t.chan)|
      ensures BatchAt(t, WritesIn(t.chan)[i], AckPoint.Applied) && WritesIn(t.chan)[i].no == |t.locs| + i
      ensures WritesIn(t.chan)[i].out == []
    {
      assert WritesIn(t.chan)[i] == ws[i + 1];
      BatchNo(s, ws[i + 1], AckPoint.Applied);
      KeptStable(s, t, ws[i + 1], AckPoint.Applied);
    }
  }

  /** A message that is not a batch changes the queue of unlinks or the engine's mode at most. */
  lemma BatchReceiveOther(s: State)
    requires BatchInv(s) && CanReceive(s) && !s.chan[0].WriteMsg?
    ensures BatchInv(ReceiveMsg(s))
  {
    hide LineOf, Exec, RecsOf, Redo, WellFormed, WritesOk, WaitersOk, HistoryOk, SpansOk, BatchAt, Names.Sorted;
    var t := ReceiveMsg(s);
    var mid := t.(chan := s.chan);
    var more := Line(t)[|Line(s)|..];
    assert Line(t) == Line(s) + more by {
      assert forall i :: 0 <= i < |Line(s)| ==> Line(t)[i] == Line(s)[i];
    }
    assert forall i :: 0 <= i < |more| ==> !more[i].work.Write?;
    InheritsAppend(Line(s), more);
    assert Line(mid) == Line(t);
    LineOnly(s, mid);
    assert WritesIn(t.chan) == WritesIn(s.chan);
    HistoryBasics(mid);
    ChanOnly(mid, t);
  }

  lemma ChanOnly(s: State, t: State)
    requires BatchInv(s) && t == s.(chan := t.chan) && WritesIn(t.chan) == WritesIn(s.chan)
    ensures BatchInv(t)
  {
    hide LineOf, Exec, RecsOf, Redo, WellFormed, WritesIn;
    InheritsSelf(Line(s));
    BooksFrame(s, t);
    WritesFrame(s, t);
    ChanFrame(s, t);
    WaitersFrame(s, t);
  }

  // ---- A completion is reaped ----

  lemma SpansApart(s: State, j: nat, k: nat, id: int)
    requires AllWellFormed(s.hist) && SpansOk(s) && j < |s.spans| && k < |s.spans| && j != k && InSpan(s.spans[j], id)
    ensures !InSpan(s.spans[k], id)
  {
    hide SpanOk;
    if j < k { assert s.spans[j].first + s.spans[j].n <= s.spans[k].first; }
    else { assert s.spans[k].first + s.spans[k].n <= s.spans[j].first; }
  }

  /** Raising one batch's level leaves every other batch's alone. */
  lemma RaiseKept(s: State, t: State, k: nat, level: AckPoint, b: Batch)
    requires AllWellFormed(s.hist) && SpansOk(s) && k < |s.spans| && b.no < |s.spans| && b.no != k
    requires t.reach == Raise(s.reach, s.spans[k], level)
    ensures LevelKept(s, t, b)
  {
    hide SpansOk, Raise;
    forall id | InSpan(s.spans[b.no], id) && 0 <= id < |s.reach| ensures t.reach[id] == s.reach[id] {
      SpansApart(s, b.no, k, id);
    }
  }

  lemma {:induction false} RaiseAllKept(s: State, bs: seq<Batch>, level: AckPoint, no: nat, id: nat)
    requires AllWellFormed(s.hist) && SpansOk(s) && Spanned(bs, s.spans) && no < |s.spans| && id < |s.reach|
    requires InSpan(s.spans[no], id) && forall i :: 0 <= i < |bs| ==> bs[i].no != no
    ensures RaiseAll(s.reach, s.spans, bs, level)[id] == s.reach[id]
  {
    hide SpansOk;
    if bs == [] {
    } else {
      RaiseAllKept(s, bs[..|bs| - 1], level, no, id);
      SpansApart(s, no, bs[|bs| - 1].no, id);
    }
  }

  lemma {:induction false} RaiseAllRaised(reach: seq<AckPoint>, spans: seq<Span>, bs: seq<Batch>, level: AckPoint,
                                          a: nat, id: nat)
    requires Spanned(bs, spans) && a < |bs| && id < |reach| && InSpan(spans[bs[a].no], id)
    ensures RaiseAll(reach, spans, bs, level)[id] == level
  {
    if a < |bs| - 1 {
      RaiseAllRaised(reach, spans, bs[..|bs| - 1], level, a, id);
    }
  }

  lemma DueMonotone(mode: Mode, body: bytes)
    requires WellFormed(body)
    ensures Due(mode, body, AckPoint.Applied) ==> Due(mode, body, AckPoint.Written)
    ensures Due(mode, body, AckPoint.Written) ==> Due(mode, body, Durable)
    ensures Due(mode, body, Durable)
    ensures mode != Sync ==> Due(mode, body, AckPoint.Written)
  {
  }

  /** What is left of a fully written batch is what a batch at `Written` should hold. */
  lemma AdvancedBatch(s: State, t: State, b: Batch)
    requires HistoryOk(s) && Extends(s, t) && t.hist == s.hist && BatchAt(s, b, AckPoint.Applied)
    requires t.reach == Raise(s.reach, s.spans[b.no], AckPoint.Written)
    requires ItemsWellFormed(b.items)
    ensures BatchAt(t, b.(items := Remaining(s.eng.mode, b.items, AckPoint.Written)), AckPoint.Written)
    ensures s.eng.mode != Sync ==> IsSettled(Remaining(s.eng.mode, b.items, AckPoint.Written))
  {
    hide Exec, RecsOf, RespTo, WellFormed, Due, Raise;
    var sp := s.spans[b.no];
    assert t.spans[b.no] == sp;
    SpanStable(s, t, sp);
    var left := Remaining(s.eng.mode, b.items, AckPoint.Written);
    forall i | 0 <= i < sp.n
      ensures left[i] == Expected(t, sp.first + i, AckPoint.Written)
      ensures s.eng.mode != Sync ==> left[i].resp.None?
    {
      assert b.items[i] == Expected(s, sp.first + i, AckPoint.Applied);
      DueMonotone(s.eng.mode, s.hist[sp.first + i]);
      ExpectedStable(s, t, sp.first + i, AckPoint.Written);
    }
  }

  lemma WrittenWaiters(s: State, t: State, b: Batch)
    requires HistoryOk(s) && SpansOk(s) && WaitersOk(s) && Extends(s, t) && t.hist == s.hist
    requires BatchAt(s, b, AckPoint.Applied) && Ingested(s, b) && ItemsWellFormed(b.items)
    requires t.reach == Raise(s.reach, s.spans[b.no], AckPoint.Written) && t.eng.seg.ino == s.eng.seg.ino
    requires t.eng.awaiting == OnWritten(s.eng, b).eng.awaiting
    ensures WaitersOk(t)
  {
    hide Exec, RecsOf, WellFormed, Redo, Expected, SpansOk, HistoryOk, Raise, Remaining, IsSettled;
    HistoryBasics(s);
    var left := b.(items := Remaining(s.eng.mode, b.items, AckPoint.Written));
    AdvancedBatch(s, t, b);
    SpanFits(s, s.spans[b.no]);
    assert s.reach[s.spans[b.no].first] == AckPoint.Applied by { assert InSpan(s.spans[b.no], s.spans[b.no].first); }
    forall a | 0 <= a < |s.eng.awaiting|
      ensures BatchAt(t, s.eng.awaiting[a], AckPoint.Written) && Ingested(t, s.eng.awaiting[a])
      ensures s.eng.awaiting[a].no != b.no
    {
      var w := s.eng.awaiting[a];
      SpanFits(s, s.spans[w.no]);
      assert InSpan(s.spans[w.no], s.spans[w.no].first);
      RaiseKept(s, t, b.no, AckPoint.Written, w);
      KeptStable(s, t, w, AckPoint.Written);
      IngestedStable(s, t, w);
    }
    IngestedStable(s, t, b);
    assert Ingested(t, left);
  }

  lemma BatchReapWritten(s: State)
    requires BatchInv(s) && CanReap(s) && s.ker.cq[0].work.Write?
    requires Complete(s.ker.cq[0].work, s.ker.cq[0].res) == Finished(Some(s.ker.cq[0].work.batch))
    ensures BatchInv(ReapHead(s))
  {
    hide Exec, RecsOf, WellFormed, Redo, Expected, HistoryOk, SpansOk, LineOf, Raise, Remaining, Sent, WritesIn,
         BatchAt, Ingested;
    var t := ReapHead(s);
    var b := s.ker.cq[0].work.batch;
    assert Line(s)[0].work == s.ker.cq[0].work;
    HistoryBasics(s);
    assert WriteOk(s, s.ker.cq[0].work);
    BooksFrame(s, t);
    WrittenWaiters(s, t, b);
    LineReap(s.ker.cq, s.ker.ops, s.eng.pending);
    InheritsTail(Line(s));
    forall i | 0 <= i < |Line(t)| && Line(t)[i].work.Write? ensures LevelKept(s, t, Line(t)[i].work.batch) {
      assert Line(t)[i] == Line(s)[i + 1];
      BatchNo(s, Line(s)[i + 1].work.batch, AckPoint.Applied);
      RaiseKept(s, t, b.no, AckPoint.Written, Line(t)[i].work.batch);
    }
    WritesFrame(s, t);
    IngestedNo(s, b);
    forall i | 0 <= i < |WritesIn(s.chan)| ensures LevelKept(s, t, WritesIn(s.chan)[i]) {
      BatchNo(s, WritesIn(s.chan)[i], AckPoint.Applied);
      RaiseKept(s, t, b.no, AckPoint.Written, WritesIn(s.chan)[i]);
    }
    ChanFrame(s, t);
  }

  lemma IngestedNo(s: State, b: Batch)
    requires AllWellFormed(s.hist) && Ingested(s, b)
    ensures b.no < |s.locs|
  {
  }

  /** An fsync's completion, or a sealed segment, serves every waiter. */
  lemma SettleFrame(s: State, t: State)
    requires BatchInv(s) && SameBooks(s, t) && Spanned(s.eng.awaiting, s.spans)
    requires t.reach == RaiseAll(s.reach, s.spans, s.eng.awaiting, Durable)
    requires t.eng.awaiting == [] && t.chan == s.chan && t.held == s.held && t.pool == s.pool + Freed(s.eng.awaiting)
    requires Inherits(Line(t), Line(s)) && (Line(t) == [] || t.eng.seg.ino == s.eng.seg.ino)
    ensures BatchInv(t)
  {
    hide Exec, RecsOf, WellFormed, Redo, Expected, HistoryOk, SpansOk, LineOf, WritesIn, BatchAt, Ingested, RaiseAll;
    HistoryBasics(s);
    BooksFrame(s, t);
    forall b: Batch | b.no < |s.spans| && BatchAt(s, b, AckPoint.Applied) ensures LevelKept(s, t, b) {
      SettleKept(s, t, b);
    }
    if Line(t) != [] {
      forall i | 0 <= i < |Line(t)| && Line(t)[i].work.Write? ensures LevelKept(s, t, Line(t)[i].work.batch) {
        assert Among(Line(t)[i], Line(s));
        var j :| 0 <= j < |Line(s)| && SameWrite(Line(t)[i], Line(s)[j]);
        assert WriteOk(s, Line(s)[j].work);
        BatchNo(s, Line(s)[j].work.batch, AckPoint.Applied);
      }
      WritesFrame(s, t);
    }
    forall i | 0 <= i < |WritesIn(s.chan)| ensures LevelKept(s, t, WritesIn(s.chan)[i]) {
      BatchNo(s, WritesIn(s.chan)[i], AckPoint.Applied);
    }
    ChanFrame(s, t);
  }

  lemma SettleKept(s: State, t: State, b: Batch)
    requires HistoryOk(s) && SpansOk(s) && WaitersOk(s) && Spanned(s.eng.awaiting, s.spans)
    requires b.no < |s.spans| && BatchAt(s, b, AckPoint.Applied)
    requires t.reach == RaiseAll(s.reach, s.spans, s.eng.awaiting, Durable)
    ensures LevelKept(s, t, b)
  {
    hide Exec, RecsOf, WellFormed, Redo, Expected, HistoryOk, SpansOk, Ingested, RaiseAll;
    HistoryBasics(s);
    SpanFits(s, s.spans[b.no]);
    assert InSpan(s.spans[b.no], s.spans[b.no].first);
    forall a | 0 <= a < |s.eng.awaiting| ensures s.eng.awaiting[a].no != b.no {
      assert BatchAt(s, s.eng.awaiting[a], AckPoint.Written);
    }
    forall id | InSpan(s.spans[b.no], id) && 0 <= id < |s.reach| ensures t.reach[id] == s.reach[id] {
      RaiseAllKept(s, s.eng.awaiting, Durable, b.no, id);
    }
  }

  lemma BatchReap(s: State)
    requires BatchInv(s) && CanReap(s)
    ensures BatchInv(ReapHead(s))
  {
    hide BatchInv, LineOf, Raise, RaiseAll, Sent, SentAll, Requeued, Remaining, Inherits, IsSettled;
    var t := ReapHead(s);
    var c := s.ker.cq[0];
    match Complete(c.work, c.res)
    case Finished(None) =>
      LineReap(s.ker.cq, s.ker.ops, s.eng.pending);
      InheritsTail(Line(s));
      assert s.pool + [] == s.pool;
      LineOnly(s, t);
    case Finished(Some(b)) =>
      BatchReapWritten(s);
    case Retry(w) =>
      LineRetry(s.ker.cq, s.ker.ops, s.eng.pending);
      InheritsRequeued(Line(s), |s.ker.cq| - 1 + |s.ker.ops|);
      assert s.pool + [] == s.pool;
      LineOnly(s, t);
    case Flushed =>
      LineReap(s.ker.cq, s.ker.ops, s.eng.pending);
      InheritsTail(Line(s));
      SettleFrame(s, t);
  }

  lemma BatchRotate(s: State)
    requires BatchInv(s) && CanFinishRotate(s)
    ensures BatchInv(Rotate(s))
  {
    hide Exec, RecsOf, WellFormed, Redo, Expected, HistoryOk, SpansOk, LineOf, RaiseAll, SentAll, WritesIn, BatchAt,
         WritesOk, WaitersOk, ChanOk;
    var t := Rotate(s);
    assert |Line(t)| == 0;
    SettleFrame(s, t);
  }

  /** Every step keeps the batch invariant. */
  lemma BatchStep(s: State, step: Step)
    requires BatchInv(s) && Enabled(s, step)
    ensures BatchInv(Next(s, step))
  {
    hide BatchInv, LineOf, TakeBatch, ReceiveMsg, ReapHead, Rotate, Moved, Landing, WritesIn;
    var k := s.ker;
    match step
    case Take(reqs) => BatchTake(s, reqs);
    case Post(msg) => BatchPost(s, msg);
    case Receive => BatchReceive(s);
    case ArmFsync => BatchArm(s);
    case Submit => BatchSubmit(s);
    case KernelWrite(i, res) => BatchPosted(s, DoWrite(k, i, res), i, res);
    case KernelFsync =>
      assert Without(k.ops, 0) == k.ops[1..];
      BatchPosted(s, DoFsync(k), 0, 0);
    case FailFsync(res) =>
      assert Without(k.ops, 0) == k.ops[1..];
      BatchPosted(s, FsyncFailed(k, res), 0, res);
    case KernelRemove(i, gone) => BatchPosted(s, DoRemove(k, i, gone), i, if gone then 0 else -2);
    case ReapCqe => BatchReap(s);
    case FinishRotate => BatchRotate(s);
  }

  lemma BatchPost(s: State, msg: WalMsg)
    requires BatchInv(s) && !msg.WriteMsg?
    ensures BatchInv(s.(chan := s.chan + [msg]))
  {
    hide WritesIn, BatchInv;
    WritesSnoc(s.chan, msg);
    ChanOnly(s, s.(chan := s.chan + [msg]));
  }

  lemma BatchArm(s: State)
    requires BatchInv(s)
    ensures BatchInv(s.(eng := Arm(s.eng)))
  {
    hide BatchInv, LineOf, Inherits;
    var t := s.(eng := Arm(s.eng));
    var more := if FsyncPlanner.ShouldFsync(s.eng.plan) then [SlotOf(Fsync(s.eng.last))] else [];
    InheritsAppend(Line(s), more);
    assert Line(t) == Line(s) + more by {
      if more == [] { assert s.eng.pending + [] == s.eng.pending; }
      else { LineAppend(s.ker.cq, s.ker.ops, s.eng.pending, Fsync(s.eng.last)); }
    }
    LineOnly(s, t);
  }

  lemma BatchSubmit(s: State)
    requires BatchInv(s) && s.eng.pending != []
    ensures BatchInv(SubmitFront(s))
  {
    hide BatchInv, LineOf, Inherits;
    LineSubmit(s.ker.cq, s.ker.ops, s.eng.pending, s.eng.seg.ino);
    InheritsSelf(Line(s));
    LineOnly(s, SubmitFront(s));
  }

  lemma BatchReceive(s: State)
    requires BatchInv(s) && CanReceive(s)
    ensures BatchInv(ReceiveMsg(s))
  {
    hide BatchInv, ReceiveWrite;
    if s.chan[0].WriteMsg? { BatchReceiveWrite(s); } else { BatchReceiveOther(s); }
  }

  lemma BatchPosted(s: State, k: Kernel, i: nat, res: int)
    requires BatchInv(s) && i < |s.ker.ops|
    requires k.ops == Without(s.ker.ops, i) && k.cq == s.ker.cq + [Cqe(s.ker.ops[i].work, res)]
    ensures BatchInv(s.(ker := k))
  {
    hide BatchInv, LineOf, Moved, Inherits, Without, CqSlot;
    var t := s.(ker := k);
    LinePost(s.ker.cq, s.ker.ops, s.eng.pending, i, res);
    assert Line(s)[|s.ker.cq| + i] == SlotOf(s.ker.ops[i].work);
    var x := CqSlot(Cqe(s.ker.ops[i].work, res));
    assert x.work == s.ker.ops[i].work by { CqSlotWork(Cqe(s.ker.ops[i].work, res)); }
    InheritsMoved(Line(s), |s.ker.cq|, |s.ker.cq| + i, x);
    LineOnly(s, t);
  }

  lemma CqSlotWork(c: Cqe)
    ensures CqSlot(c).work == c.work
  {
  }
}
