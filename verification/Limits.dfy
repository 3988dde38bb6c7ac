/** Sizes that hold in every run (crates/server/src/main.rs, stage3/mod.rs): ring, batches and request bodies. */
module Limits {
  import opened Stage2
  import opened Acker
  import opened IoLine
  import opened WalCore
  import opened Pipeline
  import opened Names

  ghost predicate Limited(s: State) {
    && |s.ker.ops| + |s.ker.cq| <= s.eng.depth
    && (forall k :: 0 <= k < |s.spans| ==> 1 <= s.spans[k].n <= 1024)
    && (forall i :: 0 <= i < |s.hist| ==> |s.hist[i]| <= 8_388_608)
  }

  lemma LimitedTake(s: State, reqs: seq<Req>)
    requires Limited(s) && CanTake(s, reqs)
    ensures Limited(TakeBatch(s, reqs))
  {
    hide ApplyRequests, Exec, RecsOf, Sent;
    var t := TakeBatch(s, reqs);
    forall i | 0 <= i < |t.hist| ensures |t.hist[i]| <= 8_388_608 {
      if i >= |s.hist| { assert t.hist[i] == reqs[i - |s.hist|].data; }
    }
  }

  lemma LimitedStep(s: State, step: Step)
    requires Limited(s) && Enabled(s, step)
    ensures Limited(Next(s, step)) && Next(s, step).eng.depth == s.eng.depth
  {
    hide TakenBatch, ApplyRequests, Sent, Exec, Landing, SentAll, RaiseAll, Raise, Freed, Remaining, IsSettled, LineOf,
         Encoded, Grown, RecsOf, Sorted;
    if step.Take? { LimitedTake(s, step.reqs); }
  }

  lemma LimitedInit(s: State)
    requires Init(s)
    ensures Limited(s)
  {
  }

  /**
   In every state of every run: the ring holds at most `depth` operations, each batch sent to the WAL has at
   most 1024 requests, and no request is longer than 8 MiB.
   */
  lemma {:induction false} LimitsAlways(states: seq<State>, steps: seq<Step>, i: nat)
    requires IsRun(states, steps) && i <= |steps|
    ensures var s := states[i];
            && |s.ker.ops| + |s.ker.cq| <= s.eng.depth == states[0].eng.depth
            && (forall k :: 0 <= k < |s.spans| ==> 1 <= s.spans[k].n <= 1024)
            && (forall j :: 0 <= j < |s.hist| ==> |s.hist[j]| <= 8_388_608)
  {
    hide Init, Enabled, Next;
    if i == 0 {
      LimitedInit(states[0]);
    } else {
      LimitsAlways(states, steps, i - 1);
      LimitedStep(states[i - 1], steps[i - 1]);
    }
  }
}
