/**
 The WAL engine's own steps as functions of its state (crates/server/src/stage3/mod.rs). The class
 `WalEngine` carries them out imperatively; `Pipeline` runs them against stage 2 and the kernel.
 */
module WalCore {
  import opened Bytes
  import opened Types
  import opened Recovery
  import opened Stage2
  import opened Acker
  import opened IoWork
  import opened FsyncPlanner

  /** The open segment: its name, the file behind its descriptor, and the next free offset. */
  datatype Segment = Segment(start: nat, ino: nat, offset: nat)

  /** `rotating` is set while `rotate` waits for the ring to empty. The slab's entries live with the kernel. */
  datatype Engine = Engine(
    mode: Mode, depth: nat, pending: seq<Work>, last: nat, seg: Segment,
    plan: Plan, awaiting: seq<Batch>, rotating: Option<nat>)

  /** The redo bytes of a batch: its PUTs, numbered upwards from its low watermark. */
  function Redo(lo: nat, bodies: seq<bytes>): bytes
    requires AllWellFormed(bodies)
  {
    EncodeLog(RecsOf(lo, bodies))
  }

  function Encoded(b: Batch): Batch
    requires ItemsWellFormed(b.items)
  {
    b.(out := b.out + Redo(b.lo, Bodies(b.items)))
  }

  function Ingest(e: Engine, b: Batch): Engine
    requires ItemsWellFormed(b.items)
  {
    var b' := Encoded(b);
    e.(last := b.hi,
       seg := e.seg.(offset := e.seg.offset + |b'.out|),
       plan := e.plan.(dirty := e.plan.dirty + |b'.out|),
       pending := e.pending + [Write(b', e.seg.offset, 0)])
  }

  function Arm(e: Engine): Engine {
    e.(plan := Armed(e.plan), pending := e.pending + if ShouldFsync(e.plan) then [Fsync(e.last)] else [])
  }

  function Removals(names: seq<nat>): (ws: seq<Work>)
    ensures |ws| == |names| && forall i :: 0 <= i < |ws| ==> ws[i] == Remove(names[i])
  {
    seq(|names|, i requires 0 <= i < |names| => Remove(names[i]))
  }

  /** What reaping yields besides the new engine state: replies sent and buffers returned to the pool. */
  datatype Yield = Yield(eng: Engine, sent: seq<Reply>, freed: seq<Batch>)

  ghost predicate BatchesWellFormed(bs: seq<Batch>) {
    forall i :: 0 <= i < |bs| ==> ItemsWellFormed(bs[i].items)
  }

  function SentAll(mode: Mode, bs: seq<Batch>, reached: AckPoint): seq<Reply>
    requires BatchesWellFormed(bs)
  {
    if bs == [] then [] else
    SentAll(mode, bs[..|bs| - 1], reached) + Sent(mode, bs[|bs| - 1].items, reached)
  }

  function Freed(bs: seq<Batch>): (r: seq<Batch>)
    ensures |r| == |bs| && forall i :: 0 <= i < |r| ==> r[i] == bs[i].Recycle()
  {
    seq(|bs|, i requires 0 <= i < |bs| => bs[i].Recycle())
  }

  /** An fsync has completed: every batch waiting for one is answered and returned. */
  function Settle(e: Engine): Yield
    requires BatchesWellFormed(e.awaiting)
  {
    Yield(e.(awaiting := [], plan := e.plan.(flushing := false)),
          SentAll(e.mode, e.awaiting, Durable), Freed(e.awaiting))
  }

  function OnWritten(e: Engine, b: Batch): Yield
    requires ItemsWellFormed(b.items)
  {
    var left := Remaining(e.mode, b.items, AckPoint.Written);
    var sent := Sent(e.mode, b.items, AckPoint.Written);
    if IsSettled(left) then Yield(e, sent, [b.Recycle()])
    else Yield(e.(awaiting := e.awaiting + [b.(items := left)]), sent, [])
  }

  function Retried(e: Engine, w: Work): Engine {
    var more := if w.Write? && w.done <= |w.batch.out| then |w.batch.out| - w.done else 0;
    e.(pending := [w] + e.pending, plan := e.plan.(dirty := e.plan.dirty + more))
  }

  ghost predicate WorkWellFormed(w: Work) { w.Write? ==> ItemsWellFormed(w.batch.items) }

  function Reap(e: Engine, w: Work, res: int): Yield
    requires BatchesWellFormed(e.awaiting) && WorkWellFormed(w) && Complete(w, res) != Fatal
  {
    match Complete(w, res)
    case Finished(None) => Yield(e, [], [])
    case Finished(Some(b)) => OnWritten(e, b)
    case Retry(w') => Yield(Retried(e, w'), [], [])
    case Flushed => Settle(e)
  }

  /** The end of `rotate`: the old segment is sealed, its waiters served, and the next one opened. */
  function Reopen(e: Engine, next: Segment): Yield
    requires BatchesWellFormed(e.awaiting)
  {
    var y := Settle(e);
    y.(eng := y.eng.(seg := next, rotating := None))
  }
}
