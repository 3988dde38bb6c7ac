/**
 Nothing is dropped: every PUT belongs to a batch sent to the WAL, and such a batch is waiting in the
 channel, in the line of I/O, or for an fsync, until it has reached the level its clients wait for. In
 NoFsync mode replies moreover go out in request order.
 */
module Outstanding {
  import opened Bytes
  import opened Types
  import opened Wire
  import opened Stage2
  import opened Acker
  import opened IoWork
  import opened IoLine
  import opened WalCore
  import opened Pipeline
  import opened LineSteps
  import opened Batches
  import opened BatchSteps
  import opened Replies

  ghost predicate InSomeSpan(spans: seq<Span>, id: int) {
    exists k :: 0 <= k < |spans| && InSpan(spans[k], id)
  }

  ghost predicate PutsSpanned(s: State)
    requires AllWellFormed(s.hist)
  {
    forall id :: 0 <= id < |s.hist| && OpOf(s.hist[id]) == Put ==> InSomeSpan(s.spans, id)
  }

  /** A level above `Applied` is reached through ingestion only. */
  ghost predicate RaisedPlaced(s: State) {
    && |s.locs| <= |s.spans|
    && forall id :: 0 <= id < |s.reach| && s.reach[id] != AckPoint.Applied ==> InSomeSpan(s.spans[..|s.locs|], id)
  }

  ghost predicate InLine(line: seq<Slot>, k: nat) {
    exists i :: 0 <= i < |line| && line[i].work.Write? && line[i].work.batch.no == k
  }

  ghost predicate Waiting(bs: seq<Batch>, k: nat) {
    exists a :: 0 <= a < |bs| && bs[a].no == k
  }

  ghost predicate Served(s: State, k: nat)
    requires k < |s.spans|
  {
    forall id :: InSpan(s.spans[k], id) && 0 <= id < |s.reach| ==> Rank(Level(s.eng.mode)) <= Rank(s.reach[id])
  }

  ghost predicate NoneDropped(s: State)
    requires |s.locs| <= |s.spans|
  {
    forall k :: 0 <= k < |s.locs| ==> InLine(Line(s), k) || Waiting(s.eng.awaiting, k) || Served(s, k)
  }

  ghost predicate InOrderReplies(s: State)
    requires AllWellFormed(s.hist) && |s.conns| == |s.hist|
  {
    s.eng.mode == NoFsync ==>
      && |s.replies| == |s.hist|
      && forall id :: 0 <= id < |s.hist| ==>
        s.replies[id] == Reply(id, s.conns[id], SpecResp(s.db0, s.hist, id), AckPoint.Applied)
  }

  ghost predicate OutInv(s: State) {
    && AllWellFormed(s.hist) && |s.conns| == |s.hist|
    && PutsSpanned(s) && RaisedPlaced(s) && NoneDropped(s) && InOrderReplies(s)
  }

  // ---- The line keeps its writes ----

  lemma InLineMoved(line: seq<Slot>, c: nat, m: nat, x: Slot, k: nat)
    requires c <= m < |line| && x.work == line[m].work && InLine(line, k)
    ensures InLine(Moved(line, c, m, x), k)
  {
    hide Moved;
    var i :| 0 <= i < |line| && line[i].work.Write? && line[i].work.batch.no == k;
    assert Moved(line, c, m, x)[Place(c, m, i)].work == line[i].work;
  }

  lemma InLineRequeued(line: seq<Slot>, q: nat, k: nat)
    requires 0 <= q < |line| && line[0].work.Write? && InLine(line, k)
    ensures InLine(Requeued(line, q), k)
  {
    hide Requeued;
    var i :| 0 <= i < |line| && line[i].work.Write? && line[i].work.batch.no == k;
    assert Requeued(line, q)[Back(q, i)].work.Write?;
  }

  lemma InLineTail(line: seq<Slot>, k: nat)
    requires line != [] && InLine(line, k) && !(line[0].work.Write? && line[0].work.batch.no == k)
    ensures InLine(line[1..], k)
  {
    var i :| 0 <= i < |line| && line[i].work.Write? && line[i].work.batch.no == k;
    assert line[1..][i - 1] == line[i];
  }

  lemma InLineAppend(line: seq<Slot>, more: seq<Slot>, k: nat)
    requires InLine(line, k)
    ensures InLine(line + more, k)
  {
    var i :| 0 <= i < |line| && line[i].work.Write? && line[i].work.batch.no == k;
    assert (line + more)[i] == line[i];
  }

  // ---- Frames ----

  /** Everything the invariant reads, except the line, is unchanged. */
  ghost predicate SameView(s: State, t: State) {
    && SameBooks(s, t) && t.reach == s.reach && t.replies == s.replies && t.eng.awaiting == s.eng.awaiting
  }

  lemma OutFrame(s: State, t: State)
    requires OutInv(s) && SameView(s, t)
    requires forall k: nat :: InLine(Line(s), k) ==> InLine(Line(t), k)
    ensures OutInv(t)
  {
    hide LineOf, InLine, SpecResp, WellFormed, InSomeSpan;
    forall k | 0 <= k < |t.locs| ensures InLine(Line(t), k) || Waiting(t.eng.awaiting, k) || Served(t, k) {
      assert InLine(Line(s), k) || Waiting(s.eng.awaiting, k) || Served(s, k);
      assert Served(s, k) ==> Served(t, k);
    }
  }

  // ---- Stage 2 ----

  lemma {:induction false} NoPuts(lsn: nat, bodies: seq<bytes>, i: nat)
    requires AllWellFormed(bodies) && i < |bodies| && OpOf(bodies[i]) == Put
    ensures RecsOf(lsn, bodies) != []
  {
    hide WellFormed, OpOf;
    if i < |bodies| - 1 {
      NoPuts(lsn, bodies[..|bodies| - 1], i);
    }
  }

  lemma TakePuts(s: State, reqs: seq<Req>)
    requires HistoryOk(s) && OutInv(s) && CanTake(s, reqs)
    ensures AllWellFormed(TakeBatch(s, reqs).hist) && PutsSpanned(TakeBatch(s, reqs))
  {
    hide HistoryOk, Exec, RecsOf, Sent, Remaining, ApplyRequests, NoneDropped, InOrderReplies, RaisedPlaced;
    var t := TakeBatch(s, reqs);
    TakeHistory(s, reqs);
    HistoryBasics(t);
    forall id | 0 <= id < |t.hist| && OpOf(t.hist[id]) == Put ensures InSomeSpan(t.spans, id) {
      if id < |s.hist| {
        assert InSomeSpan(s.spans, id);
        var k :| 0 <= k < |s.spans| && InSpan(s.spans[k], id);
        assert InSpan(t.spans[k], id);
      } else {
        assert Datas(reqs)[id - |s.hist|] == t.hist[id];
        NoPuts(s.lsn, Datas(reqs), id - |s.hist|);
        assert TakenBatch(s, reqs).HasWalWork();
        assert InSpan(t.spans[|s.spans|], id);
      }
    }
  }

  lemma TakeRaised(s: State, reqs: seq<Req>)
    requires HistoryOk(s) && SpansOk(s) && OutInv(s) && CanTake(s, reqs)
    ensures RaisedPlaced(TakeBatch(s, reqs)) && NoneDropped(TakeBatch(s, reqs))
  {
    hide HistoryOk, Exec, RecsOf, WellFormed, OpOf, Sent, Remaining, ApplyRequests, PutsSpanned, InOrderReplies,
         LineOf, InLine, TakenBatch;
    var t := TakeBatch(s, reqs);
    assert t.spans[..|t.locs|] == s.spans[..|s.locs|];
    HistoryBasics(s);
    forall k | 0 <= k < |t.locs| ensures InLine(Line(t), k) || Waiting(t.eng.awaiting, k) || Served(t, k) {
      assert InLine(Line(s), k) || Waiting(s.eng.awaiting, k) || Served(s, k);
      if Served(s, k) { TakeServed(s, reqs, k); }
    }
  }

  lemma TakeServed(s: State, reqs: seq<Req>, k: nat)
    requires HistoryOk(s) && SpansOk(s) && CanTake(s, reqs) && k < |s.spans| && Served(s, k)
    ensures Served(TakeBatch(s, reqs), k)
  {
    hide Exec, RecsOf, WellFormed, Sent, ApplyRequests, TakenBatch;
    SpanFits(s, s.spans[k]);
  }

  /** When everything is due and unanswered, replies are sent one per request, in order. */
  lemma {:induction false} SentInOrder(mode: Mode, items: seq<Request>, level: AckPoint)
    requires ItemsWellFormed(items) && forall i :: 0 <= i < |items| ==> Released(mode, items[i], level)
    ensures var sent := Sent(mode, items, level);
            && |sent| == |items|
            && forall i :: 0 <= i < |items| ==>
              items[i].resp.Some? && sent[i] == Reply(items[i].id, items[i].conn, items[i].resp.value, level)
  {
    hide WellFormed, Due;
    if items == [] {
    } else {
      SentInOrder(mode, items[..|items| - 1], level);
    }
  }

  lemma {:induction false} SentNothing(mode: Mode, items: seq<Request>, level: AckPoint)
    requires ItemsWellFormed(items) && forall i :: 0 <= i < |items| ==> items[i].resp.None?
    ensures Sent(mode, items, level) == []
  {
    hide WellFormed, Due;
    if items == [] {
    } else {
      SentNothing(mode, items[..|items| - 1], level);
    }
  }

  ghost predicate Ordered(t: State, id: nat)
    requires AllWellFormed(t.hist) && |t.conns| == |t.hist| && id < |t.hist|
  {
    id < |t.replies| && t.replies[id] == Reply(id, t.conns[id], SpecResp(t.db0, t.hist, id), AckPoint.Applied)
  }

  /** Replies already sent stay where they are. */
  lemma OldReply(s: State, t: State, id: nat)
    requires AllWellFormed(s.hist) && |s.conns| == |s.hist| && Extends(s, t) && s.replies <= t.replies
    requires id < |s.hist| && Ordered(s, id)
    ensures Ordered(t, id)
  {
    hide SpecResp, WellFormed;
    SpecStable(s, t, id);
  }

  /** In NoFsync mode everything taken is answered at once, in order. */
  lemma TakenReleased(s: State, reqs: seq<Req>)
    requires CanTake(s, reqs)
    ensures var items := ApplyRequests(s.db, |s.hist|, reqs);
            && ItemsWellFormed(items) && |items| == |reqs|
            && var sent := Sent(NoFsync, items, AckPoint.Applied);
            && |sent| == |reqs|
            && forall i :: 0 <= i < |reqs| ==>
                 && items[i].resp.Some?
                 && sent[i] == Reply(items[i].id, items[i].conn, items[i].resp.value, AckPoint.Applied)
  {
    hide Sent, ApplyRequests, WellFormed, Exec, RespTo;
    TakenWellFormed(s.db, |s.hist|, reqs);
    var items := ApplyRequests(s.db, |s.hist|, reqs);
    forall i | 0 <= i < |items| ensures Released(NoFsync, items[i], AckPoint.Applied) {
      assert WellFormed(items[i].data) && items[i].resp.Some?;
    }
    SentInOrder(NoFsync, items, AckPoint.Applied);
  }

  lemma NewReply(s: State, reqs: seq<Req>, i: nat)
    requires HistoryOk(s) && CanTake(s, reqs) && s.eng.mode == NoFsync && |s.replies| == |s.hist| && i < |reqs|
    ensures var t := TakeBatch(s, reqs);
            AllWellFormed(t.hist) && |t.conns| == |t.hist| == |s.hist| + |reqs| && Ordered(t, |s.hist| + i)
  {
    hide HistoryOk, SpecResp, WellFormed, Sent, ApplyRequests, TakeBatch;
    TakeFields(s, reqs);
    TakenReleased(s, reqs);
    TakenResp(s, reqs, i);
  }

  lemma TakeOrder(s: State, reqs: seq<Req>)
    requires HistoryOk(s) && OutInv(s) && CanTake(s, reqs)
    ensures var t := TakeBatch(s, reqs); AllWellFormed(t.hist) && |t.conns| == |t.hist| && InOrderReplies(t)
  {
    hide HistoryOk, WellFormed, Sent, ApplyRequests, PutsSpanned, RaisedPlaced, NoneDropped, SpecResp, TakeBatch;
    var t := TakeBatch(s, reqs);
    TakeHistory(s, reqs);
    HistoryBasics(t);
    TakeFields(s, reqs);
    if s.eng.mode == NoFsync {
      TakenReleased(s, reqs);
      forall id | 0 <= id < |t.hist|
        ensures t.replies[id] == Reply(id, t.conns[id], SpecResp(t.db0, t.hist, id), AckPoint.Applied)
      {
        if id < |s.hist| { OldReply(s, t, id); } else { NewReply(s, reqs, id - |s.hist|); }
      }
    }
  }

  lemma SpecStable(s: State, t: State, id: nat)
    requires AllWellFormed(s.hist) && Extends(s, t) && id < |s.hist|
    ensures SpecResp(t.db0, t.hist, id) == SpecResp(s.db0, s.hist, id)
  {
    hide Exec, RespTo, WellFormed;
    assert t.hist[..id] == s.hist[..id];
  }

  lemma OutTake(s: State, reqs: seq<Req>)
    requires HistoryOk(s) && SpansOk(s) && OutInv(s) && CanTake(s, reqs)
    ensures OutInv(TakeBatch(s, reqs))
  {
    hide HistoryOk, SpansOk, PutsSpanned, RaisedPlaced, NoneDropped, InOrderReplies, TakeBatch;
    TakePuts(s, reqs);
    TakeRaised(s, reqs);
    TakeOrder(s, reqs);
  }

  // ---- Stage 3 ----

  lemma OutReceiveWrite(s: State)
    requires BatchInv(s) && OutInv(s) && CanReceive(s) && s.chan[0].WriteMsg?
    ensures OutInv(ReceiveWrite(s))
  {
    hide BatchInv, LineOf, SpecResp, WellFormed, RecsOf, Redo, Grown, PutsSpanned;
    AssertionsHold(s);
    var t := ReceiveWrite(s);
    var x := SlotOf(Write(Encoded(s.chan[0].batch), s.eng.seg.offset, 0));
    LineAppend(s.ker.cq, s.ker.ops, s.eng.pending, x.work);
    assert Line(t) == Line(s) + [x];
    forall k | 0 <= k < |t.locs| ensures InLine(Line(t), k) || Waiting(t.eng.awaiting, k) || Served(t, k) {
      if k < |s.locs| {
        assert InLine(Line(s), k) || Waiting(s.eng.awaiting, k) || Served(s, k);
        if InLine(Line(s), k) { InLineAppend(Line(s), [x], k); }
      } else {
        assert Line(t)[|Line(s)|] == x;
      }
    }
    forall id | 0 <= id < |t.reach| && t.reach[id] != AckPoint.Applied ensures InSomeSpan(t.spans[..|t.locs|], id) {
      assert InSomeSpan(s.spans[..|s.locs|], id);
      SpanPrefix(s.spans, |s.locs|, |t.locs|, id);
    }
    assert PutsSpanned(t) by { PutsSame(s, t); }
  }

  lemma PutsSame(s: State, t: State)
    requires AllWellFormed(s.hist) && t.hist == s.hist && t.spans == s.spans && PutsSpanned(s)
    ensures PutsSpanned(t)
  {
  }

  lemma SpanPrefix(spans: seq<Span>, m: nat, n: nat, id: int)
    requires m <= n <= |spans| && InSomeSpan(spans[..m], id)
    ensures InSomeSpan(spans[..n], id)
  {
    var k :| 0 <= k < |spans[..m]| && InSpan(spans[..m][k], id);
    assert InSpan(spans[..n][k], id);
  }

  lemma OutReceive(s: State)
    requires BatchInv(s) && OutInv(s) && CanReceive(s)
    ensures OutInv(ReceiveMsg(s))
  {
    hide BatchInv, OutInv, LineOf, ReceiveWrite, Names.Sorted;
    var t := ReceiveMsg(s);
    if s.chan[0].WriteMsg? {
      OutReceiveWrite(s);
    } else {
      var more := Line(t)[|Line(s)|..];
      assert Line(t) == Line(s) + more by { assert forall i :: 0 <= i < |Line(s)| ==> Line(t)[i] == Line(s)[i]; }
      forall k: nat | InLine(Line(s), k) ensures InLine(Line(t), k) { InLineAppend(Line(s), more, k); }
      OutFrame(s, t);
    }
  }

  // ---- Reaping ----

  /** In Sync mode a written batch never settles early: it holds a PUT, which waits for `Durable`. */
  lemma SyncUnsettled(s: State, b: Batch)
    requires HistoryOk(s) && BatchAt(s, b, AckPoint.Applied) && ItemsWellFormed(b.items) && s.eng.mode == Sync
    ensures !IsSettled(Remaining(Sync, b.items, AckPoint.Written))
  {
    hide HistoryOk, Exec, RespTo, RecsOf;
    HistoryBasics(s);
    var sp := s.spans[b.no];
    var bodies := Slice(s, sp);
    RecsNumbered(sp.lo, bodies);
    var r := RecsOf(sp.lo, bodies)[0];
    assert r.body in bodies && IsPut(r.body);
    var i :| 0 <= i < |bodies| && bodies[i] == r.body;
    assert b.items[i] == Expected(s, sp.first + i, AckPoint.Applied);
    assert Remaining(Sync, b.items, AckPoint.Written)[i].resp.Some?;
  }

  lemma OutReapWritten(s: State)
    requires BatchInv(s) && OutInv(s) && CanReap(s) && s.ker.cq[0].work.Write?
    requires Complete(s.ker.cq[0].work, s.ker.cq[0].res) == Finished(Some(s.ker.cq[0].work.batch))
    ensures OutInv(ReapHead(s))
  {
    hide HistoryOk, SpansOk, ChanOk, WaitersOk, LineOf, SpecResp, RecsOf, Exec, Sent, Raise, Remaining, IsSettled,
         PutsSpanned, InOrderReplies, Redo, InLine;
    var t := ReapHead(s);
    var b := s.ker.cq[0].work.batch;
    HistoryBasics(s);
    assert Line(s)[0].work == s.ker.cq[0].work;
    assert WriteOk(s, s.ker.cq[0].work);
    LineReap(s.ker.cq, s.ker.ops, s.eng.pending);
    forall k | 0 <= k < |t.locs| ensures InLine(Line(t), k) || Waiting(t.eng.awaiting, k) || Served(t, k) {
      if k == b.no {
        WrittenServed(s, t, b);
      } else {
        assert InLine(Line(s), k) || Waiting(s.eng.awaiting, k) || Served(s, k);
        if InLine(Line(s), k) { InLineTail(Line(s), k); }
        else if Waiting(s.eng.awaiting, k) { StillWaiting(s, b, k); }
        else { RaiseServed(s, t, b.no, k); }
      }
    }
    forall id | 0 <= id < |t.reach| && t.reach[id] != AckPoint.Applied ensures InSomeSpan(t.spans[..|t.locs|], id) {
      if InSpan(s.spans[b.no], id) { assert InSpan(t.spans[..|t.locs|][b.no], id); }
    }
    assert PutsSpanned(t) by { PutsSame(s, t); }
    assert InOrderReplies(t) by { QuietWritten(s, b); OrderSame(s, t); }
  }

  lemma WrittenServed(s: State, t: State, b: Batch)
    requires HistoryOk(s) && BatchAt(s, b, AckPoint.Applied) && ItemsWellFormed(b.items)
    requires t.spans == s.spans && t.eng.mode == s.eng.mode
    requires t.reach == Raise(s.reach, s.spans[b.no], AckPoint.Written)
    requires t.eng.awaiting == OnWritten(s.eng, b).eng.awaiting
    ensures Waiting(t.eng.awaiting, b.no) || Served(t, b.no)
  {
    hide HistoryOk, BatchAt, Remaining, IsSettled, Raise;
    HistoryBasics(s);
    BatchNo(s, b, AckPoint.Applied);
    if IsSettled(Remaining(s.eng.mode, b.items, AckPoint.Written)) {
      if s.eng.mode == Sync { SyncUnsettled(s, b); }
    } else {
      assert t.eng.awaiting[|s.eng.awaiting|].no == b.no;
    }
  }

  lemma StillWaiting(s: State, b: Batch, k: nat)
    requires ItemsWellFormed(b.items) && Waiting(s.eng.awaiting, k)
    ensures Waiting(OnWritten(s.eng, b).eng.awaiting, k)
  {
    hide Remaining, IsSettled;
    var a :| 0 <= a < |s.eng.awaiting| && s.eng.awaiting[a].no == k;
    assert OnWritten(s.eng, b).eng.awaiting[a].no == k;
  }

  lemma RaiseServed(s: State, t: State, j: nat, k: nat)
    requires j < |s.spans| && k < |s.spans| && Served(s, k) && AllWellFormed(s.hist) && SpansOk(s) && j != k
    requires t.spans == s.spans && t.eng.mode == s.eng.mode && t.reach == Raise(s.reach, s.spans[j], AckPoint.Written)
    ensures Served(t, k)
  {
    hide SpansOk, Raise;
    forall id | InSpan(s.spans[k], id) && 0 <= id < |s.reach| ensures t.reach[id] == s.reach[id] {
      SpansApart(s, k, j, id);
    }
  }

  /** In NoFsync mode a batch that reaches stage 3 has nothing left to answer. */
  lemma QuietWritten(s: State, b: Batch)
    requires HistoryOk(s) && BatchAt(s, b, AckPoint.Applied) && ItemsWellFormed(b.items)
    ensures s.eng.mode == NoFsync ==> Sent(s.eng.mode, b.items, AckPoint.Written) == []
  {
    hide HistoryOk, Exec, RespTo, RecsOf, Sent;
    HistoryBasics(s);
    if s.eng.mode == NoFsync {
      var sp := s.spans[b.no];
      forall i | 0 <= i < |b.items| ensures b.items[i].resp.None? {
        assert b.items[i] == Expected(s, sp.first + i, AckPoint.Applied);
      }
      SentNothing(s.eng.mode, b.items, AckPoint.Written);
    }
  }

  lemma OrderSame(s: State, t: State)
    requires AllWellFormed(s.hist) && |s.conns| == |s.hist| && InOrderReplies(s) && SameBooks(s, t)
    requires s.eng.mode == NoFsync ==> t.replies == s.replies
    ensures InOrderReplies(t)
  {
    hide SpecResp, WellFormed;
  }

  lemma OutSettle(s: State, t: State)
    requires BatchInv(s) && OutInv(s) && SameBooks(s, t) && Spanned(s.eng.awaiting, s.spans)
    requires BatchesWellFormed(s.eng.awaiting)
    requires t.reach == RaiseAll(s.reach, s.spans, s.eng.awaiting, Durable)
    requires t.replies == s.replies + SentAll(s.eng.mode, s.eng.awaiting, Durable)
    requires forall k: nat :: InLine(Line(s), k) ==> InLine(Line(t), k)
    ensures OutInv(t)
  {
    hide HistoryOk, SpansOk, ChanOk, WritesOk, LineOf, SpecResp, RecsOf, Exec, RaiseAll, PutsSpanned, InOrderReplies,
         Redo, InLine, BatchAt, Ingested;
    HistoryBasics(s);
    forall k | 0 <= k < |t.locs| ensures InLine(Line(t), k) || Waiting(t.eng.awaiting, k) || Served(t, k) {
      assert InLine(Line(s), k) || Waiting(s.eng.awaiting, k) || Served(s, k);
      if !InLine(Line(s), k) { SettleServed(s, t, k); }
    }
    forall id | 0 <= id < |t.reach| && t.reach[id] != AckPoint.Applied ensures InSomeSpan(t.spans[..|t.locs|], id) {
      if t.reach[id] != s.reach[id] {
        Raised(s, s.eng.awaiting, id);
        var a :| 0 <= a < |s.eng.awaiting| && InSpan(s.spans[s.eng.awaiting[a].no], id);
        IngestedNo(s, s.eng.awaiting[a]);
        assert InSpan(t.spans[..|t.locs|][s.eng.awaiting[a].no], id);
      }
    }
    assert PutsSpanned(t) by { PutsSame(s, t); }
    assert s.eng.mode == NoFsync ==> s.eng.awaiting == [] && t.replies == s.replies;
    OrderSame(s, t);
  }

  lemma {:induction false} Raised(s: State, bs: seq<Batch>, id: nat)
    requires Spanned(bs, s.spans) && id < |s.reach| && RaiseAll(s.reach, s.spans, bs, Durable)[id] != s.reach[id]
    ensures exists a :: 0 <= a < |bs| && InSpan(s.spans[bs[a].no], id)
  {
    var n := |bs| - 1;
    if RaiseAll(s.reach, s.spans, bs[..n], Durable)[id] != s.reach[id] {
      Raised(s, bs[..n], id);
      var a :| 0 <= a < |bs[..n]| && InSpan(s.spans[bs[..n][a].no], id);
      assert InSpan(s.spans[bs[a].no], id);
    } else {
      assert InSpan(s.spans[bs[n].no], id);
    }
  }

  lemma SettleServed(s: State, t: State, k: nat)
    requires AllWellFormed(s.hist) && SpansOk(s) && |s.reach| == |s.hist| && k < |s.spans|
    requires Spanned(s.eng.awaiting, s.spans)
    requires t.spans == s.spans && t.eng.mode == s.eng.mode
    requires t.reach == RaiseAll(s.reach, s.spans, s.eng.awaiting, Durable)
    requires Waiting(s.eng.awaiting, k) || Served(s, k)
    ensures Served(t, k)
  {
    hide SpansOk, RaiseAll;
    forall id | InSpan(s.spans[k], id) && 0 <= id < |s.reach| ensures Rank(Level(s.eng.mode)) <= Rank(t.reach[id]) {
      if a :| 0 <= a < |s.eng.awaiting| && s.eng.awaiting[a].no == k {
        RaiseAllRaised(s.reach, s.spans, s.eng.awaiting, Durable, a, id);
      } else {
        RaiseAllKept(s, s.eng.awaiting, Durable, k, id);
      }
    }
  }

  lemma OutReap(s: State)
    requires BatchInv(s) && OutInv(s) && CanReap(s)
    ensures OutInv(ReapHead(s))
  {
    hide BatchInv, OutInv, LineOf, Raise, RaiseAll, Sent, SentAll, Requeued, Remaining, IsSettled, InLine;
    var t := ReapHead(s);
    var c := s.ker.cq[0];
    assert Line(s)[0].work == c.work;
    match Complete(c.work, c.res)
    case Finished(Some(b)) => OutReapWritten(s);
    case Finished(None) =>
      LineReap(s.ker.cq, s.ker.ops, s.eng.pending);
      forall k: nat | InLine(Line(s), k) ensures InLine(Line(t), k) { InLineTail(Line(s), k); }
      assert s.replies + [] == s.replies;
      OutFrame(s, t);
    case Flushed =>
      LineReap(s.ker.cq, s.ker.ops, s.eng.pending);
      forall k: nat | InLine(Line(s), k) ensures InLine(Line(t), k) { InLineTail(Line(s), k); }
      OutSettle(s, t);
    case Retry(w) =>
      LineRetry(s.ker.cq, s.ker.ops, s.eng.pending);
      forall k: nat | InLine(Line(s), k) ensures InLine(Line(t), k) {
        InLineRequeued(Line(s), |s.ker.cq| - 1 + |s.ker.ops|, k);
      }
      assert s.replies + [] == s.replies;
      OutFrame(s, t);
  }

  lemma OutPosted(s: State, k: Kernel, i: nat, res: int)
    requires OutInv(s) && i < |s.ker.ops|
    requires k.ops == Without(s.ker.ops, i) && k.cq == s.ker.cq + [Cqe(s.ker.ops[i].work, res)]
    ensures OutInv(s.(ker := k))
  {
    hide OutInv, LineOf, Moved, Without, CqSlot, InLine;
    var t := s.(ker := k);
    LinePost(s.ker.cq, s.ker.ops, s.eng.pending, i, res);
    assert Line(s)[|s.ker.cq| + i] == SlotOf(s.ker.ops[i].work);
    var x := CqSlot(Cqe(s.ker.ops[i].work, res));
    CqSlotWork(Cqe(s.ker.ops[i].work, res));
    forall n: nat | InLine(Line(s), n) ensures InLine(Line(t), n) {
      InLineMoved(Line(s), |s.ker.cq|, |s.ker.cq| + i, x, n);
    }
    OutFrame(s, t);
  }

  lemma OutArm(s: State)
    requires OutInv(s)
    ensures OutInv(s.(eng := Arm(s.eng)))
  {
    hide OutInv, LineOf, InLine;
    var t := s.(eng := Arm(s.eng));
    var more := if FsyncPlanner.ShouldFsync(s.eng.plan) then [SlotOf(Fsync(s.eng.last))] else [];
    assert Line(t) == Line(s) + more by {
      if more == [] { assert s.eng.pending + [] == s.eng.pending; }
      else { LineAppend(s.ker.cq, s.ker.ops, s.eng.pending, Fsync(s.eng.last)); }
    }
    forall n: nat | InLine(Line(s), n) ensures InLine(Line(t), n) { InLineAppend(Line(s), more, n); }
    OutFrame(s, t);
  }

  lemma OutRotate(s: State)
    requires BatchInv(s) && OutInv(s) && CanFinishRotate(s)
    ensures OutInv(Rotate(s))
  {
    hide BatchInv, OutInv, LineOf, RaiseAll, SentAll;
    assert |Line(s)| == 0;
    OutSettle(s, Rotate(s));
  }

  lemma OutInit(s: State)
    requires Init(s)
    ensures OutInv(s)
  {
    hide SpecResp, LineOf;
  }

  lemma OutStep(s: State, step: Step)
    requires BatchInv(s) && OutInv(s) && Enabled(s, step)
    ensures OutInv(Next(s, step))
  {
    hide BatchInv, OutInv, LineOf, TakeBatch, ReceiveMsg, ReapHead, Rotate, Landing, HistoryOk, SpansOk;
    match step
    case Take(reqs) => HistoryFromBatch(s); OutTake(s, reqs);
    case Post(_) => OutFrame(s, Next(s, step));
    case Receive => OutReceive(s);
    case ArmFsync => OutArm(s);
    case Submit =>
      LineSubmit(s.ker.cq, s.ker.ops, s.eng.pending, s.eng.seg.ino);
      OutFrame(s, Next(s, step));
    case KernelWrite(i, res) => OutPosted(s, DoWrite(s.ker, i, res), i, res);
    case KernelFsync =>
      assert Without(s.ker.ops, 0) == s.ker.ops[1..];
      OutPosted(s, DoFsync(s.ker), 0, 0);
    case FailFsync(res) =>
      assert Without(s.ker.ops, 0) == s.ker.ops[1..];
      OutPosted(s, FsyncFailed(s.ker, res), 0, res);
    case KernelRemove(i, gone) => OutPosted(s, DoRemove(s.ker, i, gone), i, if gone then 0 else -2);
    case ReapCqe => OutReap(s);
    case FinishRotate => OutRotate(s);
  }
}
