/**
 Exactly when the engine can take its next step (crates/server/src/stage3/mod.rs): reaping stops at an
 unrecoverable error only, a message is refused only where the source panics, and a rotation waits for I/O only.
 */
module Readiness {
  import opened Types
  import opened Wire
  import opened IoWork
  import opened IoLine
  import opened WalCore
  import opened Pipeline
  import opened Routing
  import opened Batches
  import opened BatchSteps
  import opened Storage
  import opened Durability
  import opened Replies
  import opened Outstanding
  import opened Content
  import opened Runs
  import opened Theorems

  /** Reaping never meets a missing slot or a foreign batch; exactly an unrecoverable error stops it. */
  lemma CanAlwaysReap(s: State)
    requires Inv(s) && s.ker.cq != []
    ensures CanReap(s) <==> !Broken(s.ker.cq[0].work, s.ker.cq[0].res)
  {
    hide RouteInv, BatchInv, DurableInv, ReplyInv, OutInv, Buffers.BufferInv, ContentInv, LineInv, PlanOk, LineOf,
         WellFormed;
    InvParts(s);
    WaitersBasics(s);
    var c := s.ker.cq[0];
    CompleteExactly(c.work, c.res);
    if c.work.Write? {
      HeadBatch(s);
    }
  }

  lemma HeadBatch(s: State)
    requires BatchInv(s) && s.ker.cq != [] && s.ker.cq[0].work.Write?
    ensures var b := s.ker.cq[0].work.batch;
            b.no < |s.spans| && ItemsWellFormed(b.items)
  {
    hide HistoryOk, SpansOk, ChanOk, WaitersOk, LineOf, BatchAt, PoolOk, DistinctWrites, Ingested, ItemsWellFormed;
    HistoryBasics(s);
    assert Line(s)[0] == CqSlot(s.ker.cq[0]);
    assert WriteOk(s, Line(s)[0].work);
    BatchFits(s, s.ker.cq[0].work.batch, AckPoint.Applied);
  }

  lemma BatchFits(s: State, b: Batch, reached: AckPoint)
    requires HistoryOk(s) && BatchAt(s, b, reached)
    ensures b.no < |s.spans| && ItemsWellFormed(b.items)
  {
    hide HistoryOk, BatchAt, SpanOk;
    HistoryBasics(s);
    BatchBodies(s, b, reached);
    BatchNo(s, b, reached);
  }

  lemma WaitersBasics(s: State)
    requires BatchInv(s)
    ensures Spanned(s.eng.awaiting, s.spans) && BatchesWellFormed(s.eng.awaiting)
  {
    hide HistoryOk, SpansOk, ChanOk, WritesOk, BatchAt, LineOf, Ingested, ItemsWellFormed;
    HistoryBasics(s);
    forall i | 0 <= i < |s.eng.awaiting|
      ensures s.eng.awaiting[i].no < |s.spans| && ItemsWellFormed(s.eng.awaiting[i].items)
    {
      BatchFits(s, s.eng.awaiting[i], AckPoint.Written);
    }
  }

  /**
   When stage 3 takes the next message: whenever there is one and no rotation waits, unless it is a Retire
   whose boundary lies above the active segment, at which the source panics.
   */
  lemma ReceivesExactly(s: State)
    requires Inv(s)
    ensures CanReceive(s) <==>
      && s.eng.rotating.None? && s.chan != []
      && !(s.chan[0].RetireMsg? && s.eng.seg.start < s.chan[0].boundary)
  {
    hide RouteInv, BatchInv, LineInv, PlanOk, ResultsOk, DurableInv, ReplyInv, OutInv, Buffers.BufferInv, ContentInv;
    if s.chan != [] && s.chan[0].WriteMsg? { AssertionsHold(s); }
  }

  /** A rotation ends as soon as nothing is pending, in the ring or posted; that batches wait does not hold it up. */
  lemma RotatesExactly(s: State)
    requires Inv(s)
    ensures CanFinishRotate(s) <==>
      s.eng.rotating.Some? && s.eng.pending == [] && s.ker.ops == [] && s.ker.cq == []
  {
    hide BatchInv, LineInv, PlanOk, ResultsOk, DurableInv, ReplyInv, OutInv, Buffers.BufferInv, ContentInv, LineOf,
         RemovesBelow;
    WaitersBasics(s);
  }
}
