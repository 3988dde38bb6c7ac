/**
 LSN agreement and the contents of every batch under way (crates/server/src/types.rs, stage2/mod.rs,
 stage3/mod.rs). Batches sent to the WAL tile the PUTs of the request history in order, so stage 3's
 gap and count assertions hold; each batch still carries exactly the responses not yet due.
 */
module Batches {
  import opened Bytes
  import opened Types
  import opened Wire
  import opened Stage2
  import opened Acker
  import opened IoWork
  import opened IoLine
  import opened WalCore
  import opened Pipeline

  // ---- What a request is owed ----

  /** The answer a plain sequential map gives to request `id`. */
  function SpecResp(db0: Kv, hist: seq<bytes>, id: nat): Resp
    requires AllWellFormed(hist) && id < |hist|
  {
    RespTo(Exec(db0, hist[..id]), hist[id])
  }

  /** Request `id` inside a batch that has reached a level: its response is gone exactly if it was due. */
  function Expected(s: State, id: nat, reached: AckPoint): Request
    requires AllWellFormed(s.hist) && |s.conns| == |s.hist| && id < |s.hist|
  {
    Request(id, s.conns[id], s.hist[id],
            if Due(s.eng.mode, s.hist[id], reached) then None else Some(SpecResp(s.db0, s.hist, id)))
  }

  ghost predicate HistoryOk(s: State) {
    && AllWellFormed(s.hist) && |s.conns| == |s.hist| && |s.reach| == |s.hist|
    && (forall i :: 0 <= i < |s.hist| ==> |s.hist[i]| <= MAX_BODY)
    && s.db == Exec(s.db0, s.hist)
    && s.lsn == s.start + |RecsOf(s.start, s.hist)|
  }

  function Slice(s: State, sp: Span): seq<bytes>
    requires sp.first + sp.n <= |s.hist|
  {
    s.hist[sp.first..sp.first + sp.n]
  }

  ghost predicate SpanOk(s: State, sp: Span)
    requires AllWellFormed(s.hist)
  {
    && sp.n >= 1 && sp.first + sp.n <= |s.hist|
    && sp.lo < sp.hi
    && sp.lo == s.start + |RecsOf(s.start, s.hist[..sp.first])|
    && sp.hi == sp.lo + |RecsOf(sp.lo, Slice(s, sp))|
  }

  ghost predicate SpansOk(s: State)
    requires AllWellFormed(s.hist)
  {
    && (forall k :: 0 <= k < |s.spans| ==> SpanOk(s, s.spans[k]))
    && (forall j, k :: 0 <= j < k < |s.spans| ==> s.spans[j].first + s.spans[j].n <= s.spans[k].first)
    && (forall k :: 0 < k < |s.spans| ==> s.spans[k - 1].hi == s.spans[k].lo)
    && (s.spans == [] ==> s.lsn == s.start)
    && (s.spans != [] ==> s.spans[0].lo == s.start && s.spans[|s.spans| - 1].hi == s.lsn)
  }

  ghost predicate InSpan(sp: Span, id: int) { sp.first <= id < sp.first + sp.n }

  /** A batch under way whose requests have reached `reached`. */
  ghost predicate BatchAt(s: State, b: Batch, reached: AckPoint)
    requires AllWellFormed(s.hist) && |s.conns| == |s.hist| && |s.reach| == |s.hist|
  {
    && b.no < |s.spans|
    && var sp := s.spans[b.no];
    && SpanOk(s, sp)
    && b.lo == sp.lo && b.hi == sp.hi
    && |b.items| == sp.n
    && (forall i :: 0 <= i < sp.n ==> b.items[i] == Expected(s, sp.first + i, reached))
    && (forall id :: InSpan(sp, id) ==> s.reach[id] == reached)
  }

  /** The batches waiting in the channel, oldest first. */
  function WritesIn(chan: seq<WalMsg>): seq<Batch> {
    if chan == [] then [] else
    (if chan[0].WriteMsg? then [chan[0].batch] else []) + WritesIn(chan[1..])
  }

  ghost predicate ChanOk(s: State)
    requires AllWellFormed(s.hist) && |s.conns| == |s.hist| && |s.reach| == |s.hist|
  {
    var ws := WritesIn(s.chan);
    && |s.locs| + |ws| == |s.spans|
    && forall i :: 0 <= i < |ws| ==> ws[i].no == |s.locs| + i && ws[i].out == [] && BatchAt(s, ws[i], AckPoint.Applied)
  }

  /** An ingested batch: encoded, and placed where `locs` says, in the active segment. */
  ghost predicate Ingested(s: State, b: Batch)
    requires AllWellFormed(s.hist)
  {
    && b.no < |s.locs| && b.no < |s.spans|
    && s.spans[b.no].first + s.spans[b.no].n <= |s.hist|
    && b.out == Redo(s.spans[b.no].lo, Slice(s, s.spans[b.no]))
    && s.locs[b.no].ino == s.eng.seg.ino && s.locs[b.no].len == |b.out|
  }

  ghost predicate WritesOk(s: State)
    requires AllWellFormed(s.hist) && |s.conns| == |s.hist| && |s.reach| == |s.hist|
  {
    forall i :: 0 <= i < |Line(s)| && Line(s)[i].work.Write? ==> WriteOk(s, Line(s)[i].work)
  }

  ghost predicate WriteOk(s: State, w: Work)
    requires AllWellFormed(s.hist) && |s.conns| == |s.hist| && |s.reach| == |s.hist|
    requires w.Write?
  {
    && BatchAt(s, w.batch, AckPoint.Applied) && Ingested(s, w.batch)
    && s.locs[w.batch.no].off == w.offset
  }

  ghost predicate WaitersOk(s: State)
    requires AllWellFormed(s.hist) && |s.conns| == |s.hist| && |s.reach| == |s.hist|
  {
    var ws := s.eng.awaiting;
    && (forall a :: 0 <= a < |ws| ==> BatchAt(s, ws[a], AckPoint.Written) && Ingested(s, ws[a]))
    && (forall a, b :: 0 <= a < b < |ws| ==> ws[a].no != ws[b].no)
    && (ws != [] ==> s.eng.mode == Sync)
  }

  /** Stage 3's watermark is that of the last batch it ingested. */
  ghost predicate WatermarkOk(s: State) {
    && |s.locs| <= |s.spans|
    && s.eng.last == if s.locs == [] then s.start else s.spans[|s.locs| - 1].hi
  }

  /** Buffers at rest are empty. */
  ghost predicate PoolOk(s: State) {
    && (forall i :: 0 <= i < |s.pool| ==> s.pool[i].Cleared())
    && (s.held.Some? ==> s.held.value.Cleared())
  }

  ghost predicate DistinctWrites(line: seq<Slot>) {
    forall i, j :: 0 <= i < j < |line| && line[i].work.Write? && line[j].work.Write? ==>
      line[i].work.batch.no != line[j].work.batch.no
  }

  ghost predicate BatchInv(s: State) {
    && HistoryOk(s) && SpansOk(s) && WatermarkOk(s) && ChanOk(s)
    && WritesOk(s) && DistinctWrites(Line(s)) && WaitersOk(s) && PoolOk(s)
  }

  /**
   LSN agreement: when stage 3 receives a batch, it continues exactly where the last one ended, and the
   number of PUTs it encodes is the number stage 2 counted. Neither assertion can fail.
   */
  lemma AssertionsHold(s: State)
    requires BatchInv(s) && s.chan != [] && s.chan[0].WriteMsg?
    ensures var b := s.chan[0].batch;
            && ItemsWellFormed(b.items)
            && b.lo == s.eng.last
            && b.lo + |RecsOf(b.lo, Bodies(b.items))| == b.hi
            && b.hi > b.lo && b.out == []
            && b.no == |s.locs| && |s.locs| < |s.spans|
            && Bodies(b.items) == Slice(s, s.spans[|s.locs|])
            && BatchAt(s, b, AckPoint.Applied)
  {
    hide RecsOf, Exec, SpecResp, WritesOk, WaitersOk;
    var b := s.chan[0].batch;
    assert WritesIn(s.chan)[0] == b;
    BatchBodies(s, b, AckPoint.Applied);
    var k := |s.locs|;
    assert k > 0 ==> s.spans[k - 1].hi == s.spans[k].lo;
  }

  lemma BatchBodies(s: State, b: Batch, reached: AckPoint)
    requires HistoryOk(s) && BatchAt(s, b, reached)
    ensures Bodies(b.items) == Slice(s, s.spans[b.no])
    ensures ItemsWellFormed(b.items) && Numbered(b.items, s.spans[b.no].first)
  {
    hide RecsOf, Exec, SpecResp, Due;
    var sp := s.spans[b.no];
    forall i | 0 <= i < sp.n ensures b.items[i].data == s.hist[sp.first + i] && b.items[i].id == sp.first + i {
      assert b.items[i] == Expected(s, sp.first + i, reached);
    }
  }

  // ---- Stability ----

  lemma ExpectedStable(s: State, t: State, id: nat, reached: AckPoint)
    requires AllWellFormed(s.hist) && |s.conns| == |s.hist| && AllWellFormed(t.hist) && |t.conns| == |t.hist|
    requires s.hist <= t.hist && s.conns <= t.conns && t.db0 == s.db0 && t.eng.mode == s.eng.mode
    requires id < |s.hist|
    ensures Expected(t, id, reached) == Expected(s, id, reached)
  {
    hide Exec, Due, RespTo, WellFormed;
    assert t.hist[..id] == s.hist[..id];
  }

  /** The parts of a state that batches under way depend on only ever grow. */
  ghost predicate Extends(s: State, t: State) {
    && AllWellFormed(t.hist) && |t.conns| == |t.hist| && |t.reach| == |t.hist|
    && s.hist <= t.hist && s.conns <= t.conns && s.spans <= t.spans && s.locs <= t.locs
    && t.start == s.start && t.db0 == s.db0 && t.eng.mode == s.eng.mode
  }

  /** Nothing a step does to the rest of the system disturbs a batch, as long as its level stands. */
  lemma BatchStable(s: State, t: State, b: Batch, reached: AckPoint)
    requires HistoryOk(s) && Extends(s, t) && BatchAt(s, b, reached)
    requires forall id :: InSpan(s.spans[b.no], id) ==> t.reach[id] == s.reach[id]
    ensures BatchAt(t, b, reached)
  {
    hide Expected, SpanOk, HistoryOk, WellFormed;
    assert AllWellFormed(s.hist) && |s.conns| == |s.hist| && |s.reach| == |s.hist| by { HistoryBasics(s); }
    var sp := s.spans[b.no];
    assert t.spans[b.no] == sp;
    SpanStable(s, t, sp);
    SpanFits(s, sp);
    forall i | 0 <= i < sp.n ensures b.items[i] == Expected(t, sp.first + i, reached) {
      ExpectedStable(s, t, sp.first + i, reached);
    }
  }

  lemma HistoryFromBatch(s: State)
    requires BatchInv(s)
    ensures HistoryOk(s) && SpansOk(s) && WatermarkOk(s)
  {
    hide ChanOk, WritesOk, WaitersOk, LineOf, RecsOf, Exec;
  }

  lemma HistoryBasics(s: State)
    requires HistoryOk(s)
    ensures AllWellFormed(s.hist) && |s.conns| == |s.hist| && |s.reach| == |s.hist|
  {
  }

  lemma SpanFits(s: State, sp: Span)
    requires AllWellFormed(s.hist) && SpanOk(s, sp)
    ensures sp.n >= 1 && sp.first + sp.n <= |s.hist| && sp.lo < sp.hi
  {
  }

  lemma SpanStable(s: State, t: State, sp: Span)
    requires AllWellFormed(s.hist) && AllWellFormed(t.hist) && s.hist <= t.hist && t.start == s.start && SpanOk(s, sp)
    ensures SpanOk(t, sp) && Slice(t, sp) == Slice(s, sp)
  {
    hide RecsOf;
    assert t.hist[..sp.first] == s.hist[..sp.first];
    assert Slice(t, sp) == Slice(s, sp);
  }
}
