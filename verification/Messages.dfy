/**
 What Rotate and Retire come to (crates/server/src/stage3/mod.rs): a Retire queues an unlink for each segment
 below its boundary, and once those are done none is left; a Rotate ends with the named segment active.
 */
module Messages {
  import opened Bytes
  import opened Types
  import opened Stage2
  import opened Acker
  import opened IoWork
  import opened IoLine
  import opened WalCore
  import opened Pipeline
  import opened Names
  import opened Routing
  import opened CalmSteps
  import opened Runs

  /** Unlinks of exactly the segments of `dir` below `b`, oldest first. */
  ghost predicate UnlinksBelow(more: seq<Work>, dir: map<nat, nat>, b: nat) {
    && (forall i :: 0 <= i < |more| ==> more[i].Remove?)
    && (forall i, j :: 0 <= i < j < |more| ==> more[i].name < more[j].name)
    && (forall n: nat :: Remove(n) in more <==> n in dir && n < b)
  }

  /** Receiving a Retire queues, behind what is pending, one unlink for each segment below the boundary, in order. */
  lemma RetireQueues(s: State) returns (more: seq<Work>)
    requires CanReceive(s) && s.chan[0].RetireMsg?
    ensures ReceiveMsg(s).eng.pending == s.eng.pending + more
    ensures UnlinksBelow(more, s.ker.dir, s.chan[0].boundary)
  {
    hide Sorted;
    var b := s.chan[0].boundary;
    var names := Below(s.ker.dir.Keys, b);
    more := Removals(names);
    forall n: nat ensures Remove(n) in more <==> n in s.ker.dir && n < b {
      if Remove(n) in more {
        var i :| 0 <= i < |more| && more[i] == Remove(n);
        assert names[i] == n && n in names;
      }
      if n in s.ker.dir && n < b {
        assert n in names;
        var i :| 0 <= i < |names| && names[i] == n;
        assert more[i] == Remove(n);
      }
    }
  }

  // ---- Until they are done ----

  /** An unlink of `n` is queued or in the ring. */
  ghost predicate UnlinkDue(s: State, n: nat) {
    || (exists i :: 0 <= i < |s.eng.pending| && s.eng.pending[i] == Remove(n))
    || (exists i :: 0 <= i < |s.ker.ops| && s.ker.ops[i].work == Remove(n))
  }

  /** The kernel reports that the unlink of `n` did not remove anything. */
  ghost predicate UnlinkMissed(s: State, step: Step, n: nat) {
    step.KernelRemove? && !step.gone && step.i < |s.ker.ops| && s.ker.ops[step.i].work == Remove(n)
  }

  lemma DueInRing(s: State, i: nat, n: nat)
    requires i < |s.ker.ops| && s.ker.ops[i].work == Remove(n)
    ensures UnlinkDue(s, n)
  {
  }

  lemma DueInPending(s: State, i: nat, n: nat)
    requires i < |s.eng.pending| && s.eng.pending[i] == Remove(n)
    ensures UnlinkDue(s, n)
  {
  }

  lemma DueSubmitted(s: State, n: nat)
    requires s.eng.pending != [] && UnlinkDue(s, n)
    ensures UnlinkDue(SubmitFront(s), n)
  {
    var t := SubmitFront(s);
    if i :| 0 <= i < |s.eng.pending| && s.eng.pending[i] == Remove(n) {
      if i == 0 { DueInRing(t, |s.ker.ops|, n); } else { DueInPending(t, i - 1, n); }
    } else {
      var i :| 0 <= i < |s.ker.ops| && s.ker.ops[i].work == Remove(n);
      DueInRing(t, i, n);
    }
  }

  /** Another operation completes. */
  lemma DuePosted(s: State, t: State, x: nat, n: nat)
    requires UnlinkDue(s, n) && x < |s.ker.ops| && s.ker.ops[x].work != Remove(n)
    requires t.eng.pending == s.eng.pending && t.ker.ops == Without(s.ker.ops, x)
    ensures UnlinkDue(t, n)
  {
    if i :| 0 <= i < |s.eng.pending| && s.eng.pending[i] == Remove(n) {
      DueInPending(t, i, n);
    } else {
      var i :| 0 <= i < |s.ker.ops| && s.ker.ops[i].work == Remove(n);
      DueInRing(t, if i < x then i else i - 1, n);
    }
  }

  /** More is queued, in front or behind. */
  lemma DueQueued(s: State, t: State, k: nat, n: nat)
    requires UnlinkDue(s, n) && t.ker.ops == s.ker.ops
    requires k + |s.eng.pending| <= |t.eng.pending|
    requires forall i :: 0 <= i < |s.eng.pending| ==> t.eng.pending[k + i] == s.eng.pending[i]
    ensures UnlinkDue(t, n)
  {
    if i :| 0 <= i < |s.eng.pending| && s.eng.pending[i] == Remove(n) {
      DueInPending(t, k + i, n);
    } else {
      var i :| 0 <= i < |s.ker.ops| && s.ker.ops[i].work == Remove(n);
      DueInRing(t, i, n);
    }
  }

  /** Below the boundary `b`, which the active segment has reached, each name left has an unlink under way. */
  ghost predicate NameLeft(s: State, b: nat, n: nat) {
    b <= s.eng.seg.start && (n < b && n in s.ker.dir ==> UnlinkDue(s, n))
  }

  lemma LeftRemove(s: State, x: nat, gone: bool, b: nat, n: nat)
    requires NameLeft(s, b, n) && CanRemove(s.ker, x) && !UnlinkMissed(s, KernelRemove(x, gone), n)
    ensures NameLeft(s.(ker := DoRemove(s.ker, x, gone)), b, n)
  {
    hide UnlinkDue, Without;
    var t := s.(ker := DoRemove(s.ker, x, gone));
    if n < b && n in t.ker.dir { DuePosted(s, t, x, n); }
  }

  lemma LeftRotate(s: State, b: nat, n: nat)
    requires NameLeft(s, b, n) && CanFinishRotate(s) && s.eng.rotating.value >= s.eng.seg.start
    ensures NameLeft(Rotate(s), b, n)
  {
    hide SentAll, RaiseAll, Freed;
  }

  lemma LeftReceive(s: State, b: nat, n: nat)
    requires NameLeft(s, b, n) && CanReceive(s)
    ensures NameLeft(ReceiveMsg(s), b, n)
  {
    hide UnlinkDue, Encoded, Grown, Stage2.RecsOf, Sorted;
    var t := ReceiveMsg(s);
    if n < b && n in s.ker.dir { DueQueued(s, t, 0, n); }
  }

  lemma LeftReap(s: State, b: nat, n: nat)
    requires NameLeft(s, b, n) && CanReap(s)
    ensures NameLeft(ReapHead(s), b, n)
  {
    hide UnlinkDue, ReapHead, CanReap;
    ReapShape(s);
    var t, v := ReapHead(s), Complete(s.ker.cq[0].work, s.ker.cq[0].res);
    if n < b && n in s.ker.dir { DueQueued(s, t, if v.Retry? then 1 else 0, n); }
  }

  lemma LeftSame(s: State, t: State, b: nat, n: nat)
    requires NameLeft(s, b, n) && t.eng.seg.start == s.eng.seg.start && t.ker.dir == s.ker.dir
    requires t.ker.ops == s.ker.ops && s.eng.pending <= t.eng.pending
    ensures NameLeft(t, b, n)
  {
    hide UnlinkDue;
    if n < b && n in s.ker.dir { DueQueued(s, t, 0, n); }
  }

  lemma LeftPosted(s: State, t: State, x: nat, b: nat, n: nat)
    requires NameLeft(s, b, n) && t.eng == s.eng && t.ker.dir == s.ker.dir
    requires x < |s.ker.ops| && !s.ker.ops[x].work.Remove? && t.ker.ops == Without(s.ker.ops, x)
    ensures NameLeft(t, b, n)
  {
    hide UnlinkDue, Without;
    if n < b && n in s.ker.dir { DuePosted(s, t, x, n); }
  }

  lemma TakeSame(s: State, reqs: seq<Req>)
    requires CanTake(s, reqs)
    ensures TakeBatch(s, reqs).ker == s.ker && TakeBatch(s, reqs).eng == s.eng
  {
    hide TakenBatch, ApplyRequests, Exec, Sent;
  }

  lemma LeftStep(s: State, step: Step, b: nat, n: nat)
    requires NameLeft(s, b, n) && Enabled(s, step) && Forward(s, step) && !UnlinkMissed(s, step, n)
    ensures NameLeft(Next(s, step), b, n)
  {
    hide NameLeft, TakeBatch, CanTake, ReceiveMsg, CanReceive, ReapHead, CanReap, Rotate, CanFinishRotate, Landing,
         MayStart, UnlinkDue;
    var t := Next(s, step);
    match step
    case Take(reqs) => TakeSame(s, reqs); LeftSame(s, t, b, n);
    case Post(_) => LeftSame(s, t, b, n);
    case Receive => LeftReceive(s, b, n);
    case ArmFsync => LeftSame(s, t, b, n);
    case Submit => LeftSubmit(s, b, n);
    case KernelWrite(i, res) => LeftPosted(s, t, i, b, n);
    case KernelFsync => assert t.ker.ops == Without(s.ker.ops, 0); LeftPosted(s, t, 0, b, n);
    case FailFsync(_) => assert t.ker.ops == Without(s.ker.ops, 0); LeftPosted(s, t, 0, b, n);
    case KernelRemove(i, gone) => LeftRemove(s, i, gone, b, n);
    case ReapCqe => LeftReap(s, b, n);
    case FinishRotate => LeftRotate(s, b, n);
  }

  lemma LeftSubmit(s: State, b: nat, n: nat)
    requires NameLeft(s, b, n) && s.eng.pending != []
    ensures NameLeft(SubmitFront(s), b, n)
  {
    hide UnlinkDue;
    if n < b && n in s.ker.dir { DueSubmitted(s, n); }
  }

  /**
   Over a run, from the receipt of a Retire on: a segment below its boundary is gone from the directory, or its
   unlink is still queued or in the ring, or the kernel failed to remove it.
   */
  lemma RetiredGoes(states: seq<State>, steps: seq<Step>, i: nat, k: nat, n: nat)
    requires ForwardRun(states, steps) && i < k <= |steps| && steps[i] == Receive
    requires states[i].chan != [] && states[i].chan[0].RetireMsg? && n < states[i].chan[0].boundary
    requires n in states[k].ker.dir
    requires forall j :: i < j < k ==> !UnlinkMissed(states[j], steps[j], n)
    ensures UnlinkDue(states[k], n)
  {
    hide Init, Enabled, Next, Forward, UnlinkMissed, NameLeft, UnlinkDue;
    LeftAlways(states, steps, i, k, n);
    LeftMeans(states[k], states[i].chan[0].boundary, n);
  }

  lemma LeftMeans(s: State, b: nat, n: nat)
    requires NameLeft(s, b, n) && n < b && n in s.ker.dir
    ensures UnlinkDue(s, n)
  {
  }

  lemma {:induction false} LeftAlways(states: seq<State>, steps: seq<Step>, i: nat, k: nat, n: nat)
    requires ForwardRun(states, steps) && i < k <= |steps| && steps[i] == Receive
    requires states[i].chan != [] && states[i].chan[0].RetireMsg?
    requires forall j :: i < j < k ==> !UnlinkMissed(states[j], steps[j], n)
    ensures NameLeft(states[k], states[i].chan[0].boundary, n)
    decreases k
  {
    hide Init, Enabled, Next, Forward, UnlinkMissed, NameLeft;
    if k == i + 1 {
      LeftStart(states[i], n);
    } else {
      LeftAlways(states, steps, i, k - 1, n);
      LeftStep(states[k - 1], steps[k - 1], states[i].chan[0].boundary, n);
    }
  }

  lemma LeftStart(s: State, n: nat)
    requires Enabled(s, Receive) && s.chan != [] && s.chan[0].RetireMsg?
    ensures NameLeft(Next(s, Receive), s.chan[0].boundary, n)
  {
    hide Sorted, Removals, UnlinkDue;
    var t := Next(s, Receive);
    if n < s.chan[0].boundary && n in s.ker.dir {
      var more := RetireQueues(s);
      assert Remove(n) in more;
      var i :| 0 <= i < |more| && more[i] == Remove(n);
      DueInPending(t, |s.eng.pending| + i, n);
    }
  }

  /** Once no unlink is queued or in the ring, and none was missed, no segment below the boundary is left. */
  lemma RetiredGone(states: seq<State>, steps: seq<Step>, i: nat, k: nat)
    requires ForwardRun(states, steps) && i < k <= |steps| && steps[i] == Receive
    requires states[i].chan != [] && states[i].chan[0].RetireMsg?
    requires forall j :: i < j < k && steps[j].KernelRemove? ==> steps[j].gone
    requires forall x :: 0 <= x < |states[k].eng.pending| ==> !states[k].eng.pending[x].Remove?
    requires forall x :: 0 <= x < |states[k].ker.ops| ==> !states[k].ker.ops[x].work.Remove?
    ensures forall n :: n in states[k].ker.dir ==> states[i].chan[0].boundary <= n
  {
    hide Init, Enabled, Next, Forward;
    forall n: nat | n in states[k].ker.dir ensures states[i].chan[0].boundary <= n {
      if n < states[i].chan[0].boundary { RetiredGoes(states, steps, i, k, n); }
    }
  }

  // ---- Rotation ----

  lemma RotatingStays(s: State, step: Step)
    requires Enabled(s, step) && s.eng.rotating.Some? && !step.FinishRotate?
    ensures Next(s, step).eng.rotating == s.eng.rotating
  {
    hide TakenBatch, ApplyRequests, Sent, CanTake, Exec, Landing, SentAll, RaiseAll, Raise, Freed, Remaining, IsSettled,
         LineOf;
  }

  lemma {:induction false} RotatingUntil(states: seq<State>, steps: seq<Step>, i: nat, k: nat)
    requires IsRun(states, steps) && i < k <= |steps| && steps[i] == Receive
    requires states[i].chan != [] && states[i].chan[0].RotateMsg?
    requires forall j :: i < j < k ==> !steps[j].FinishRotate?
    ensures states[k].eng.rotating == Some(states[i].chan[0].boundary)
    decreases k
  {
    hide Init, Enabled, Next;
    if k == i + 1 {
      RotateReceived(states[i]);
    } else {
      RotatingUntil(states, steps, i, k - 1);
      RotatingStays(states[k - 1], steps[k - 1]);
    }
  }

  lemma RotateReceived(s: State)
    requires Enabled(s, Receive) && s.chan != [] && s.chan[0].RotateMsg?
    ensures Next(s, Receive).eng.rotating == Some(s.chan[0].boundary)
  {
  }

  /**
   Over a run: from the receipt of a Rotate on, no other message is taken until the rotation ends, and then
   the segment it names is the active one, created if missing, and the old one is fsynced.
   */
  lemma RotateTakesEffect(states: seq<State>, steps: seq<Step>, i: nat, k: nat)
    requires IsRun(states, steps) && i < k < |steps| && steps[i] == Receive
    requires states[i].chan != [] && states[i].chan[0].RotateMsg?
    requires steps[k] == FinishRotate && forall j :: i < j < k ==> !steps[j].FinishRotate?
    ensures forall j :: i < j <= k ==> steps[j] != Receive
    ensures var s, t := states[k], states[k + 1];
            && t.eng.seg.start == states[i].chan[0].boundary && t.eng.seg.start in t.ker.dir
            && t.eng.seg.ino == t.ker.dir[t.eng.seg.start] < |t.ker.files|
            && t.eng.seg.offset == |t.ker.files[t.eng.seg.ino].data| && t.eng.awaiting == []
            && s.eng.seg.ino < |t.ker.files| && s.eng.seg.ino < |s.ker.files|
            && t.ker.files[s.eng.seg.ino].synced == s.ker.files[s.eng.seg.ino].data
  {
    hide Init, Next, CanFinishRotate, Rotate;
    RotatingUntil(states, steps, i, k);
    forall j | i < j <= k ensures steps[j] != Receive {
      RotatingUntil(states, steps, i, j);
    }
    RotateEnds(states[k]);
  }

  lemma RotateEnds(s: State)
    requires Enabled(s, FinishRotate)
    ensures CanFinishRotate(s) && Next(s, FinishRotate) == Rotate(s)
    ensures s.eng.seg.ino < |s.ker.files| <= |Rotate(s).ker.files|
    ensures var t := Rotate(s);
            && t.eng.seg.start == s.eng.rotating.value && t.eng.seg.start in t.ker.dir
            && t.eng.seg.ino == t.ker.dir[t.eng.seg.start] < |t.ker.files|
            && t.eng.seg.offset == |t.ker.files[t.eng.seg.ino].data| && t.eng.awaiting == []
            && t.ker.files[s.eng.seg.ino].synced == s.ker.files[s.eng.seg.ino].data
  {
    hide SentAll, RaiseAll, Freed;
  }
}
