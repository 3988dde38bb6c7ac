/** How each step of the pipeline edits the line of outstanding I/O. */
module LineSteps {
  import opened IoWork
  import opened IoLine
  import opened Pipeline

  lemma LineAppend(cq: seq<Cqe>, ops: seq<Op>, pending: seq<Work>, w: Work)
    ensures LineOf(cq, ops, pending + [w]) == LineOf(cq, ops, pending) + [SlotOf(w)]
  {
    hide LineOf;
  }

  lemma LineSubmit(cq: seq<Cqe>, ops: seq<Op>, pending: seq<Work>, fd: nat)
    requires pending != []
    ensures LineOf(cq, ops + [Op(pending[0], fd)], pending[1..]) == LineOf(cq, ops, pending)
  {
    hide LineOf;
  }

  /** A completed operation moves up behind the completions posted before it. */
  lemma LinePost(cq: seq<Cqe>, ops: seq<Op>, pending: seq<Work>, i: nat, res: int)
    requires i < |ops|
    ensures LineOf(cq + [Cqe(ops[i].work, res)], Without(ops, i), pending)
         == Moved(LineOf(cq, ops, pending), |cq|, |cq| + i, CqSlot(Cqe(ops[i].work, res)))
  {
    hide LineOf, Moved, CqSlot, SlotOf;
    var c := Cqe(ops[i].work, res);
    var before := LineOf(cq, ops, pending);
    var after := LineOf(cq + [c], Without(ops, i), pending);
    var mv := Moved(before, |cq|, |cq| + i, CqSlot(c));
    forall j | 0 <= j < |after| ensures after[j] == mv[j] {
      if |cq| < j < |cq| + |ops| {
        assert Without(ops, i)[j - |cq| - 1] == if j - |cq| - 1 < i then ops[j - |cq| - 1] else ops[j - |cq|];
      }
    }
  }

  lemma LineReap(cq: seq<Cqe>, ops: seq<Op>, pending: seq<Work>)
    requires cq != []
    ensures LineOf(cq[1..], ops, pending) == LineOf(cq, ops, pending)[1..]
  {
    hide LineOf;
  }

  /** A retried write leaves the completions and stands in front of everything unsubmitted. */
  lemma LineRetry(cq: seq<Cqe>, ops: seq<Op>, pending: seq<Work>)
    requires cq != [] && cq[0].work.Write?
    ensures var w := cq[0].work.(done := Reached(cq[0].work, cq[0].res));
            LineOf(cq[1..], ops, [w] + pending) == Requeued(LineOf(cq, ops, pending), |cq| - 1 + |ops|)
  {
    hide LineOf, Requeued;
    var w := cq[0].work.(done := Reached(cq[0].work, cq[0].res));
    var q := |cq| - 1 + |ops|;
    var before := LineOf(cq, ops, pending);
    var after := LineOf(cq[1..], ops, [w] + pending);
    assert Resumed(before[0]) == SlotOf(w);
    forall j | 0 <= j < |after| ensures after[j] == Requeued(before, q)[j] {
      if j < |cq| - 1 { assert cq[1..][j] == cq[j + 1]; }
      else if j < q { assert before[j + 1] == SlotOf(ops[j + 1 - |cq|].work); }
      else if j > q { assert ([w] + pending)[j - q] == pending[j - q - 1]; }
    }
  }
}
