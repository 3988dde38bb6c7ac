/**
 Every reachable state of the write path satisfies the component invariants, and orderly or calm runs
 keep more.
 */
module Runs {
  import opened Recovery
  import opened IoLine
  import opened WalCore
  import opened Pipeline
  import opened Routing
  import opened Batches
  import opened BatchSteps
  import opened Storage
  import opened Durability
  import opened Replies
  import opened Outstanding
  import opened Buffers
  import opened Content
  import opened CalmSteps
  import opened LogOrder
  import opened SteadySteps
  import opened TornBatches

  ghost predicate Inv(s: State) {
    && RouteInv(s) && BatchInv(s) && IoInv(s) && DurableInv(s)
    && ReplyInv(s) && OutInv(s) && BufferInv(s) && ContentInv(s)
  }

  /** Some run, of any length and under any schedule, ends in `s`. */
  ghost predicate Reachable(s: State) {
    exists states, steps :: IsRun(states, steps) && s == states[|steps|]
  }

  lemma InvInit(s: State)
    requires Init(s)
    ensures Inv(s)
  {
    hide RouteInv, BatchInv, IoInv, DurableInv, ReplyInv, OutInv, BufferInv, ContentInv, Init;
    RouteInit(s);
    BatchInit(s);
    IoInit(s);
    DurableInit(s);
    ReplyInit(s);
    OutInit(s);
    BufferInit(s);
    ContentInit(s);
  }

  lemma InvStep(s: State, step: Step)
    requires Inv(s) && Enabled(s, step)
    ensures Inv(Next(s, step))
  {
    hide RouteInv, BatchInv, IoInv, DurableInv, ReplyInv, OutInv, BufferInv, ContentInv, Enabled, Next;
    RouteStep(s, step);
    BatchStep(s, step);
    IoStep(s, step);
    DurableStep(s, step);
    ReplyStep(s, step);
    OutStep(s, step);
    BufferStep(s, step);
    ContentStep(s, step);
  }

  lemma {:induction false} InvAlways(states: seq<State>, steps: seq<Step>, i: nat)
    requires IsRun(states, steps) && i <= |steps|
    ensures Inv(states[i])
  {
    hide Inv, Init, Enabled, Next;
    if i == 0 {
      InvInit(states[0]);
    } else {
      InvAlways(states, steps, i - 1);
      InvStep(states[i - 1], steps[i - 1]);
    }
  }

  lemma ReachableInv(s: State)
    requires Reachable(s)
    ensures Inv(s)
  {
    hide Inv, Init, Enabled, Next;
    var states, steps :| IsRun(states, steps) && s == states[|steps|];
    InvAlways(states, steps, |steps|);
  }

  /** What may be taken as a fact about a reachable state: every step from it leads to another. */
  lemma ReachableNext(s: State, step: Step)
    requires Reachable(s) && Enabled(s, step)
    ensures Reachable(Next(s, step))
  {
    hide Init, Enabled, Next;
    var states, steps :| IsRun(states, steps) && s == states[|steps|];
    var t := Next(s, step);
    var states', steps' := states + [t], steps + [step];
    forall i | 0 <= i < |steps'|
      ensures Enabled(states'[i], steps'[i]) && states'[i + 1] == Next(states'[i], steps'[i])
    {
      if i < |steps| { assert states'[i] == states[i] && states'[i + 1] == states[i + 1]; }
    }
    assert IsRun(states', steps');
  }

  // ---- Orderly and calm runs ----

  ghost predicate ForwardRun(states: seq<State>, steps: seq<Step>) {
    IsRun(states, steps) && forall i :: 0 <= i < |steps| ==> Forward(states[i], steps[i])
  }

  ghost predicate OrderlyRun(states: seq<State>, steps: seq<Step>) {
    IsRun(states, steps) && forall i :: 0 <= i < |steps| ==> Orderly(states[i], steps[i])
  }

  ghost predicate CalmRun(states: seq<State>, steps: seq<Step>) {
    IsRun(states, steps) && forall i :: 0 <= i < |steps| ==> Calm(states[i], steps[i])
  }

  ghost predicate SteadyRun(states: seq<State>, steps: seq<Step>) {
    IsRun(states, steps) && forall i :: 0 <= i < |steps| ==> Steady(states[i], steps[i])
  }

  lemma SteadyIsForward(states: seq<State>, steps: seq<Step>)
    requires SteadyRun(states, steps)
    ensures ForwardRun(states, steps)
  {
    hide Init, Enabled, Next, Forward;
    forall i | 0 <= i < |steps| ensures Forward(states[i], steps[i]) {
      assert Steady(states[i], steps[i]);
    }
  }

  lemma CalmIsSteady(states: seq<State>, steps: seq<Step>)
    requires CalmRun(states, steps)
    ensures SteadyRun(states, steps)
  {
    hide Init, Enabled, Next, Forward;
    forall i | 0 <= i < |steps| ensures Steady(states[i], steps[i]) {
      assert Calm(states[i], steps[i]);
      FullIsSteady(states[i], steps[i]);
    }
  }

  lemma FullIsSteady(s: State, step: Step)
    requires Enabled(s, step) && Calm(s, step)
    ensures Steady(s, step)
  {
    hide Forward;
  }

  /** Every segment name bound so far, with its file. */
  ghost function Seen(states: seq<State>, i: nat): map<nat, nat>
    requires i < |states|
  {
    if i == 0 then states[0].ker.dir else Seen(states, i - 1) + states[i].ker.dir
  }

  lemma {:induction false} TidyAlways(states: seq<State>, steps: seq<Step>, i: nat, snapLsn: nat, at0: Progress)
    requires ForwardRun(states, steps) && i <= |steps| && CleanStart(states[0], snapLsn, at0)
    ensures TidyInv(states[i], Seen(states, i), snapLsn, at0)
  {
    hide Init, Enabled, Next, Forward, TidyInv, CleanStart, RouteInv, BatchInv, IoInv, DurableInv, ReplyInv, OutInv,
         BufferInv, ContentInv;
    if i == 0 {
      TidyInit(states[0], snapLsn, at0);
    } else {
      TidyAlways(states, steps, i - 1, snapLsn, at0);
      InvAlways(states, steps, i - 1);
      TidyStep(states[i - 1], steps[i - 1], Seen(states, i - 1), snapLsn, at0);
    }
  }

  /** Without unlinks the directory still has every name. */
  lemma {:induction false} NoneUnlinked(states: seq<State>, steps: seq<Step>, i: nat)
    requires OrderlyRun(states, steps) && i <= |steps|
    ensures Seen(states, i) == states[i].ker.dir
  {
    hide Init, Enabled, Next, Orderly;
    if i > 0 {
      NoneUnlinked(states, steps, i - 1);
      NamesStay(states[i - 1], steps[i - 1]);
    }
  }

  lemma NamesStay(s: State, step: Step)
    requires Enabled(s, step) && Orderly(s, step)
    ensures s.ker.dir + Next(s, step).ker.dir == Next(s, step).ker.dir
  {
    hide TakenBatch, ApplyRequests, Reap, ReachAfter, Landing, SentAll, RaiseAll, Grown, Encoded, Names.Sorted, Rotate;
    if step.FinishRotate? { RotateNames(s); }
  }

  lemma RotateNames(s: State)
    requires CanFinishRotate(s)
    ensures s.ker.dir + Rotate(s).ker.dir == Rotate(s).ker.dir
  {
    hide SentAll, RaiseAll, Freed;
  }

  lemma OrderlyIsForward(states: seq<State>, steps: seq<Step>)
    requires OrderlyRun(states, steps)
    ensures ForwardRun(states, steps)
  {
    hide Init, Enabled, Next, Forward;
    forall i | 0 <= i < |steps| ensures Forward(states[i], steps[i]) {
      assert Orderly(states[i], steps[i]);
    }
  }

  lemma SmoothInit(s: State)
    requires Init(s)
    ensures SmoothState(s)
  {
    hide LineOf, SmoothRun.SmoothInv;
    assert Settled(s.ker.files[s.eng.seg.ino]);
    assert Line(s) == [];
    SmoothQuiet(Active(s));
  }

  lemma {:induction false} SmoothAlways(states: seq<State>, steps: seq<Step>, i: nat)
    requires CalmRun(states, steps) && i <= |steps|
    ensures SmoothState(states[i])
  {
    hide Init, Enabled, Next, Calm, SmoothState, RouteInv, BatchInv, IoInv, DurableInv, ReplyInv, OutInv, BufferInv,
         ContentInv;
    if i == 0 {
      SmoothInit(states[0]);
    } else {
      SmoothAlways(states, steps, i - 1);
      InvAlways(states, steps, i - 1);
      InvAlways(states, steps, i);
      SmoothStep(states[i - 1], steps[i - 1]);
    }
  }

  /** In steady runs no batch is ever torn. */
  lemma {:induction false} SteadyAlways(states: seq<State>, steps: seq<Step>, i: nat)
    requires SteadyRun(states, steps) && i <= |steps|
    ensures SteadyInv(states[i]) && NoTorn(states[i])
  {
    hide Init, Enabled, Next, Steady, WholeOrNone, SyncedEntire, DataEntire, LineOf,
         RouteInv, BatchInv, IoInv, DurableInv, ReplyInv, OutInv, BufferInv, ContentInv;
    if i == 0 {
      NothingOutstanding(states[0]);
    } else {
      SteadyAlways(states, steps, i - 1);
      InvAlways(states, steps, i - 1);
      SteadyStep(states[i - 1], steps[i - 1]);
      SteadyEntire(states[i - 1], steps[i - 1]);
    }
    InvAlways(states, steps, i);
    WholeWritesEntire(states[i]);
  }

  lemma NothingOutstanding(s: State)
    requires Init(s)
    ensures SteadyInv(s)
  {
    hide LineOf;
    assert |Line(s)| == 0;
  }
}
