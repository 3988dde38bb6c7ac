/**
 Replies over whole runs (crates/server/src/acker.rs and its four callers): each request is answered at
 most once, with the answer of a plain sequential map, never below its required level; and a PUT that is
 still unanswered belongs to a batch that is still under way.
 */
module Replies {
  import opened Bytes
  import opened Types
  import opened Wire
  import opened Stage2
  import opened Acker
  import opened IoWork
  import opened IoLine
  import opened WalCore
  import opened Pipeline
  import opened Batches
  import opened BatchSteps

  /** How many replies request `id` should have had: one if its batch has reached the level it requires. */
  function Answers(mode: Mode, hist: seq<bytes>, reach: seq<AckPoint>, id: nat): nat
    requires AllWellFormed(hist) && |reach| == |hist|
  {
    if id < |hist| && Due(mode, hist[id], reach[id]) then 1 else 0
  }

  ghost predicate CountsOk(mode: Mode, hist: seq<bytes>, reach: seq<AckPoint>, replies: seq<Reply>)
    requires AllWellFormed(hist) && |reach| == |hist|
  {
    forall id: nat :: Count(replies, id) == Answers(mode, hist, reach, id)
  }

  /** A reply is the sequential answer to its request, sent to its connection at a sufficient level. */
  ghost predicate ReplyOk(s: State, r: Reply)
    requires AllWellFormed(s.hist) && |s.conns| == |s.hist|
  {
    && r.id < |s.hist| && r.conn == s.conns[r.id]
    && r.resp == SpecResp(s.db0, s.hist, r.id)
    && Due(s.eng.mode, s.hist[r.id], r.reached)
  }

  ghost predicate RepliesOk(s: State, rs: seq<Reply>)
    requires AllWellFormed(s.hist) && |s.conns| == |s.hist|
  {
    forall i :: 0 <= i < |rs| ==> ReplyOk(s, rs[i])
  }

  ghost predicate ReplyInv(s: State) {
    && AllWellFormed(s.hist) && |s.conns| == |s.hist| && |s.reach| == |s.hist|
    && CountsOk(s.eng.mode, s.hist, s.reach, s.replies)
    && RepliesOk(s, s.replies)
  }

  // ---- Advancing one batch ----

  /** From level `before` to `level`, a batch's requests get exactly the replies that become due. */
  lemma AdvanceCounts(s: State, b: Batch, before: AckPoint, level: AckPoint, reach: seq<AckPoint>, replies: seq<Reply>)
    requires HistoryOk(s) && BatchAt(s, b, before) && ItemsWellFormed(b.items) && Rank(before) <= Rank(level)
    requires |reach| == |s.hist| && forall id :: InSpan(s.spans[b.no], id) ==> reach[id] == before
    requires CountsOk(s.eng.mode, s.hist, reach, replies)
    ensures CountsOk(s.eng.mode, s.hist, Raise(reach, s.spans[b.no], level), replies + Sent(s.eng.mode, b.items, level))
  {
    hide HistoryOk, Exec, RecsOf, RespTo, WellFormed, Raise, Sent, Count, Due, SpanOk, SpecResp;
    HistoryBasics(s);
    var sp := s.spans[b.no];
    SpanFits(s, sp);
    BatchBodies(s, b, before);
    var sent := Sent(s.eng.mode, b.items, level);
    forall id: nat ensures Count(replies + sent, id) == Answers(s.eng.mode, s.hist, Raise(reach, sp, level), id) {
      CountAppend(replies, sent, id);
      SentCount(s.eng.mode, b.items, level, sp.first, id);
      assert Count(replies, id) == Answers(s.eng.mode, s.hist, reach, id);
      if InSpan(sp, id) {
        assert b.items[id - sp.first] == Expected(s, id, before);
        DueStays(s.eng.mode, s.hist[id], before, level);
      }
    }
  }

  lemma DueStays(mode: Mode, body: bytes, before: AckPoint, level: AckPoint)
    requires WellFormed(body) && Rank(before) <= Rank(level)
    ensures Due(mode, body, before) ==> Due(mode, body, level)
  {
  }

  lemma AdvanceReplies(s: State, b: Batch, before: AckPoint, level: AckPoint)
    requires HistoryOk(s) && BatchAt(s, b, before) && ItemsWellFormed(b.items)
    ensures RepliesOk(s, Sent(s.eng.mode, b.items, level))
  {
    hide HistoryOk, Exec, RecsOf, RespTo, WellFormed, Due, Sent;
    HistoryBasics(s);
    var sent := Sent(s.eng.mode, b.items, level);
    var sp := s.spans[b.no];
    forall k | 0 <= k < |sent| ensures ReplyOk(s, sent[k]) {
      SentOrigin(s.eng.mode, b.items, level, k);
      var i :| 0 <= i < |b.items| && Released(s.eng.mode, b.items[i], level) &&
        sent[k] == Reply(b.items[i].id, b.items[i].conn, b.items[i].resp.value, level);
      assert b.items[i] == Expected(s, sp.first + i, before);
    }
  }

  // ---- Stage 2 ----

  lemma TakenResp(s: State, reqs: seq<Req>, i: nat)
    requires HistoryOk(s) && CanTake(s, reqs) && i < |reqs|
    ensures var t := TakeBatch(s, reqs);
            && AllWellFormed(t.hist) && |t.conns| == |t.hist|
            && ApplyRequests(s.db, |s.hist|, reqs)[i] ==
               Request(|s.hist| + i, t.conns[|s.hist| + i], t.hist[|s.hist| + i],
                       Some(SpecResp(s.db0, t.hist, |s.hist| + i)))
  {
    hide Exec, RecsOf, WellFormed, Due, RespTo, Sent, Remaining, ApplyRequests;
    var t := TakeBatch(s, reqs);
    TakeHistory(s, reqs);
    var before := Datas(reqs)[..i];
    assert t.hist[..|s.hist| + i] == s.hist + before;
    ExecAppend(s.db0, s.hist, before);
    assert t.hist[|s.hist| + i] == reqs[i].data && t.conns[|s.hist| + i] == reqs[i].conn;
  }

  lemma TakeSent(s: State, reqs: seq<Req>)
    requires HistoryOk(s) && CanTake(s, reqs)
    ensures var t, items := TakeBatch(s, reqs), ApplyRequests(s.db, |s.hist|, reqs);
            && AllWellFormed(t.hist) && |t.conns| == |t.hist| && ItemsWellFormed(items)
            && RepliesOk(t, Sent(s.eng.mode, items, AckPoint.Applied))
  {
    hide HistoryOk, WellFormed, Due, Sent, ApplyRequests, SpecResp, TakeBatch;
    var t, items := TakeBatch(s, reqs), ApplyRequests(s.db, |s.hist|, reqs);
    TakeHistory(s, reqs);
    HistoryBasics(t);
    TakeFields(s, reqs);
    var sent := Sent(s.eng.mode, items, AckPoint.Applied);
    hide ReplyOk, Released, HistoryOk, CanTake;
    forall k | 0 <= k < |sent| ensures ReplyOk(t, sent[k]) {
      SentOrigin(s.eng.mode, items, AckPoint.Applied, k);
      var i :| 0 <= i < |items| && Released(s.eng.mode, items[i], AckPoint.Applied) &&
        sent[k] == Reply(items[i].id, items[i].conn, items[i].resp.value, AckPoint.Applied);
      TakenReplyOk(s, reqs, i);
    }
  }

  lemma TakenReplyOk(s: State, reqs: seq<Req>, i: nat)
    requires HistoryOk(s) && CanTake(s, reqs) && i < |reqs|
    requires ItemsWellFormed(ApplyRequests(s.db, |s.hist|, reqs))
    requires Released(s.eng.mode, ApplyRequests(s.db, |s.hist|, reqs)[i], AckPoint.Applied)
    ensures var t, r := TakeBatch(s, reqs), ApplyRequests(s.db, |s.hist|, reqs)[i];
            && AllWellFormed(t.hist) && |t.conns| == |t.hist|
            && ReplyOk(t, Reply(r.id, r.conn, r.resp.value, AckPoint.Applied))
  {
    hide HistoryOk, WellFormed, Due, Sent, ApplyRequests, SpecResp, TakeBatch;
    TakeFields(s, reqs);
    TakenResp(s, reqs, i);
  }

  lemma TakeCounts(s: State, reqs: seq<Req>)
    requires HistoryOk(s) && ReplyInv(s) && CanTake(s, reqs)
    ensures var t := TakeBatch(s, reqs);
            && AllWellFormed(t.hist) && |t.reach| == |t.hist|
            && CountsOk(t.eng.mode, t.hist, t.reach, t.replies)
  {
    hide HistoryOk, WellFormed, Count, RepliesOk, TakeBatch, Answers, CanTake;
    var t := TakeBatch(s, reqs);
    TakeHistory(s, reqs);
    HistoryBasics(t);
    forall id: nat ensures Count(t.replies, id) == Answers(t.eng.mode, t.hist, t.reach, id) {
      TakeCount(s, reqs, id);
    }
  }

  /** How often a request has been answered, once a batch has been taken. */
  lemma TakeCount(s: State, reqs: seq<Req>, id: nat)
    requires HistoryOk(s) && ReplyInv(s) && CanTake(s, reqs)
    requires var t := TakeBatch(s, reqs); AllWellFormed(t.hist) && |t.reach| == |t.hist|
    ensures var t := TakeBatch(s, reqs); Count(t.replies, id) == Answers(t.eng.mode, t.hist, t.reach, id)
  {
    hide HistoryOk, WellFormed, Sent, ApplyRequests, Count, RepliesOk, Due, TakeBatch;
    var t, items := TakeBatch(s, reqs), ApplyRequests(s.db, |s.hist|, reqs);
    TakeHistory(s, reqs);
    TakeFields(s, reqs);
    CountAppend(s.replies, Sent(s.eng.mode, items, AckPoint.Applied), id);
    SentCount(s.eng.mode, items, AckPoint.Applied, |s.hist|, id);
    assert Count(s.replies, id) == Answers(s.eng.mode, s.hist, s.reach, id);
    if |s.hist| <= id < |t.hist| {
      assert t.hist[id] == Datas(reqs)[id - |s.hist|] == items[id - |s.hist|].data;
    }
  }

  lemma ReplyStable(s: State, t: State, rs: seq<Reply>)
    requires AllWellFormed(s.hist) && |s.conns| == |s.hist| && Extends(s, t) && RepliesOk(s, rs)
    ensures RepliesOk(t, rs)
  {
    hide Exec, WellFormed, Due, RespTo;
    forall i | 0 <= i < |rs| ensures ReplyOk(t, rs[i]) {
      assert ReplyOk(s, rs[i]);
      assert t.hist[..rs[i].id] == s.hist[..rs[i].id];
    }
  }

  lemma RepliesConcat(s: State, a: seq<Reply>, b: seq<Reply>)
    requires AllWellFormed(s.hist) && |s.conns| == |s.hist| && RepliesOk(s, a) && RepliesOk(s, b)
    ensures RepliesOk(s, a + b)
  {
    hide ReplyOk;
  }

  lemma ReplyTake(s: State, reqs: seq<Req>)
    requires HistoryOk(s) && ReplyInv(s) && CanTake(s, reqs)
    ensures ReplyInv(TakeBatch(s, reqs))
  {
    hide HistoryOk, Exec, RecsOf, WellFormed, Sent, ApplyRequests, CountsOk, RepliesOk, TakenBatch;
    var t := TakeBatch(s, reqs);
    TakeHistory(s, reqs);
    TakeCounts(s, reqs);
    TakeSent(s, reqs);
    ReplyStable(s, t, s.replies);
    RepliesConcat(t, s.replies, Sent(s.eng.mode, ApplyRequests(s.db, |s.hist|, reqs), AckPoint.Applied));
  }

  // ---- Reaping ----

  /** After serving the first `n` waiters, the books balance for the levels reached so far. */
  lemma {:induction false} SettleCounts(s: State, bs: seq<Batch>)
    requires HistoryOk(s) && SpansOk(s) && ReplyInv(s) && Spanned(bs, s.spans) && BatchesWellFormed(bs)
    requires forall a :: 0 <= a < |bs| ==> BatchAt(s, bs[a], AckPoint.Written)
    requires forall a, b :: 0 <= a < b < |bs| ==> bs[a].no != bs[b].no
    ensures CountsOk(s.eng.mode, s.hist, RaiseAll(s.reach, s.spans, bs, Durable),
                     s.replies + SentAll(s.eng.mode, bs, Durable))
    ensures RepliesOk(s, SentAll(s.eng.mode, bs, Durable))
  {
    hide HistoryOk, SpansOk, Exec, RecsOf, WellFormed, Sent, Raise, RepliesOk, CountsOk, Expected, SpanOk;
    if bs == [] {
      assert s.replies + [] == s.replies;
      assert RepliesOk(s, []) by { NoReplies(s); }
    } else {
      var n := |bs| - 1;
      var b := bs[n];
      SettleCounts(s, bs[..n]);
      var reach := RaiseAll(s.reach, s.spans, bs[..n], Durable);
      var replies := s.replies + SentAll(s.eng.mode, bs[..n], Durable);
      SpanFits(s, s.spans[b.no]);
      forall id | InSpan(s.spans[b.no], id) ensures reach[id] == AckPoint.Written {
        RaiseAllKept(s, bs[..n], Durable, b.no, id);
      }
      AdvanceCounts(s, b, AckPoint.Written, Durable, reach, replies);
      AdvanceReplies(s, b, AckPoint.Written, Durable);
      RepliesConcat(s, SentAll(s.eng.mode, bs[..n], Durable), Sent(s.eng.mode, b.items, Durable));
      Assoc(s.replies, SentAll(s.eng.mode, bs[..n], Durable), Sent(s.eng.mode, b.items, Durable));
    }
  }

  lemma NoReplies(s: State)
    requires AllWellFormed(s.hist) && |s.conns| == |s.hist|
    ensures RepliesOk(s, [])
  {
  }

  lemma ReplyReapWritten(s: State)
    requires BatchInv(s) && ReplyInv(s) && CanReap(s) && s.ker.cq[0].work.Write?
    requires Complete(s.ker.cq[0].work, s.ker.cq[0].res) == Finished(Some(s.ker.cq[0].work.batch))
    ensures ReplyInv(ReapHead(s))
  {
    hide HistoryOk, SpansOk, ChanOk, WaitersOk, Exec, RecsOf, WellFormed, Sent, Raise, RepliesOk, CountsOk, LineOf,
         Remaining, IsSettled, Redo;
    var t := ReapHead(s);
    var b := s.ker.cq[0].work.batch;
    assert Line(s)[0].work == s.ker.cq[0].work;
    HistoryBasics(s);
    assert WriteOk(s, s.ker.cq[0].work);
    assert OnWritten(s.eng, b).sent == Sent(s.eng.mode, b.items, AckPoint.Written);
    AdvanceCounts(s, b, AckPoint.Applied, AckPoint.Written, s.reach, s.replies);
    AdvanceReplies(s, b, AckPoint.Applied, AckPoint.Written);
    RepliesConcat(s, s.replies, Sent(s.eng.mode, b.items, AckPoint.Written));
    ReplyStable(s, t, t.replies);
  }

  lemma ReplySettle(s: State, t: State)
    requires BatchInv(s) && ReplyInv(s) && Spanned(s.eng.awaiting, s.spans) && BatchesWellFormed(s.eng.awaiting)
    requires SameBooks(s, t)
    requires t.reach == RaiseAll(s.reach, s.spans, s.eng.awaiting, Durable)
    requires t.replies == s.replies + SentAll(s.eng.mode, s.eng.awaiting, Durable)
    ensures ReplyInv(t)
  {
    hide HistoryOk, SpansOk, ChanOk, WritesOk, Exec, RecsOf, WellFormed, SentAll, RaiseAll, RepliesOk, CountsOk,
         LineOf, Redo, BatchAt;
    HistoryBasics(s);
    SettleCounts(s, s.eng.awaiting);
    RepliesConcat(s, s.replies, SentAll(s.eng.mode, s.eng.awaiting, Durable));
    assert Extends(s, t);
    ReplyStable(s, t, t.replies);
  }

  lemma ReplyReap(s: State)
    requires BatchInv(s) && ReplyInv(s) && CanReap(s)
    ensures ReplyInv(ReapHead(s))
  {
    hide BatchInv, ReplyInv, Sent, SentAll, Raise, RaiseAll, Remaining, IsSettled;
    var t := ReapHead(s);
    var c := s.ker.cq[0];
    match Complete(c.work, c.res)
    case Finished(Some(b)) => ReplyReapWritten(s);
    case Flushed => ReplySettle(s, t);
    case Finished(None) => assert s.replies + [] == s.replies; ReplyFrame(s, t);
    case Retry(_) => assert s.replies + [] == s.replies; ReplyFrame(s, t);
  }

  lemma ReplyFrame(s: State, t: State)
    requires ReplyInv(s) && t.hist == s.hist && t.conns == s.conns && t.reach == s.reach && t.replies == s.replies
    requires t.db0 == s.db0 && t.eng.mode == s.eng.mode
    ensures ReplyInv(t)
  {
    hide CountsOk, SpecResp, WellFormed, Due;
    assert forall i :: 0 <= i < |s.replies| ==> ReplyOk(s, s.replies[i]);
  }

  lemma ReplyInit(s: State)
    requires Init(s)
    ensures ReplyInv(s)
  {
  }

  lemma ReplyStep(s: State, step: Step)
    requires BatchInv(s) && ReplyInv(s) && Enabled(s, step)
    ensures ReplyInv(Next(s, step))
  {
    hide BatchInv, ReplyInv, ReapHead, Rotate, TakeBatch, SentAll, RaiseAll, Names.Sorted, Encoded, Landing;
    var t := Next(s, step);
    match step
    case Take(reqs) => HistoryFromBatch(s); ReplyTake(s, reqs);
    case ReapCqe => ReplyReap(s);
    case FinishRotate => ReplyRotate(s);
    case _ => ReplyFrame(s, t);
  }

  lemma ReplyRotate(s: State)
    requires BatchInv(s) && ReplyInv(s) && CanFinishRotate(s)
    ensures ReplyInv(Rotate(s))
  {
    hide BatchInv, ReplyInv, SentAll, RaiseAll;
    ReplySettle(s, Rotate(s));
  }
}
