/**
 The messages of compaction (crates/server/src/stage2/mod.rs:99-112). Stage 2 snapshots its table, labels the
 file one below its LSN, posts a Rotate to that label and then a Retire to one less. In every run that posts
 these messages and no others, rotations go forward, the panic in `retire` is unreachable, and each segment
 ever unlinked is covered by the snapshot. So recovery from the snapshot and what a crash leaves is right.
 */
module Compaction {
  import opened Bytes
  import opened Types
  import opened Wire
  import opened Recovery
  import opened Stage2
  import opened Acker
  import opened IoLine
  import opened WalCore
  import opened Pipeline
  import opened Names
  import opened Routing
  import opened Batches
  import opened Storage
  import opened Durability
  import opened Replies
  import opened Outstanding
  import opened Content
  import opened CalmSteps
  import opened LogOrder
  import opened CrashFiles
  import opened Runs
  import opened CrashRecovery
  import opened Theorems
  import opened Retirement

  ghost predicate PostsRotate(step: Step) { step.Post? && step.msg.RotateMsg? }

  /** A Rotate names the LSN one below stage 2's; a Retire comes after the Rotate to the next boundary. */
  ghost predicate AsSent(states: seq<State>, steps: seq<Step>, i: nat)
    requires i < |steps| < |states|
  {
    steps[i].Post? ==>
      match steps[i].msg
      case RotateMsg(b) => states[i].start < states[i].lsn && b == states[i].lsn - 1
      case RetireMsg(b) => exists j :: 0 <= j < i && steps[j] == Post(RotateMsg(b + 1))
      case WriteMsg(_) => true
  }

  ghost predicate CompactingRun(states: seq<State>, steps: seq<Step>) {
    IsRun(states, steps) && forall i :: 0 <= i < |steps| ==> AsSent(states, steps, i)
  }

  // ---- What steps do to the channel and to what has been recorded ----

  ghost predicate Grows(s: State, t: State) {
    t.start == s.start && t.db0 == s.db0 && s.hist <= t.hist && s.spans <= t.spans && s.lsn <= t.lsn
  }

  lemma StepGrows(s: State, step: Step)
    requires Enabled(s, step)
    ensures Grows(s, Next(s, step))
  {
    hide ApplyRequests, Reap, ReachAfter, Landing, SentAll, RaiseAll, Grown, Encoded, Sorted, Reopen, Exec, RecsOf,
         Sent, Remaining, LineOf;
  }

  lemma {:induction false} RunGrows(states: seq<State>, steps: seq<Step>, i: nat, j: nat)
    requires IsRun(states, steps) && i <= j <= |steps|
    ensures Grows(states[i], states[j])
    decreases j
  {
    hide Init, Enabled, Next;
    if i < j {
      RunGrows(states, steps, i, j - 1);
      StepGrows(states[j - 1], steps[j - 1]);
    }
  }

  /** The engine neither takes a message nor changes its segment. */
  ghost predicate Idle(s: State, t: State) {
    && t.chan == s.chan && t.locs == s.locs && t.spans == s.spans && t.lsn == s.lsn && t.start == s.start
    && t.eng.rotating == s.eng.rotating && t.eng.seg.start == s.eng.seg.start && t.eng.seg.ino == s.eng.seg.ino
  }

  lemma StepIdle(s: State, step: Step)
    requires Enabled(s, step) && !step.Take? && !step.Post? && !step.Receive? && !step.FinishRotate?
    ensures Idle(s, Next(s, step))
  {
    hide ReachAfter, Landing, SentAll, RaiseAll, Sent, Remaining, LineOf, Freed, IsSettled;
  }

  /** Stage 2 may send one batch. */
  lemma StepTake(s: State, reqs: seq<Req>)
    requires CanTake(s, reqs)
    ensures var t := TakeBatch(s, reqs);
            && t.locs == s.locs && t.eng == s.eng && s.lsn <= t.lsn && t.start == s.start
            && (t.chan == s.chan ||
                (|t.chan| == |s.chan| + 1 && t.chan[..|s.chan|] == s.chan && t.chan[|s.chan|].WriteMsg?))
  {
    hide ApplyRequests, Exec, RecsOf, Sent, Remaining;
  }

  lemma StepReceive(s: State)
    requires CanReceive(s)
    ensures var t := ReceiveMsg(s);
            && t.chan == s.chan[1..] && t.spans == s.spans && t.lsn == s.lsn && t.start == s.start
            && t.eng.seg.start == s.eng.seg.start && t.eng.seg.ino == s.eng.seg.ino
            && t.eng.rotating == (if s.chan[0].RotateMsg? then Some(s.chan[0].boundary) else None)
            && (if s.chan[0].WriteMsg? then
                  |t.locs| == |s.locs| + 1 && t.locs[..|s.locs|] == s.locs && t.locs[|s.locs|].ino == s.eng.seg.ino
                else t.locs == s.locs)
  {
    hide Encoded, Grown, RecsOf, Sorted;
  }

  lemma StepRotate(s: State)
    requires CanFinishRotate(s)
    ensures var t := Rotate(s);
            && t.chan == s.chan && t.locs == s.locs && t.spans == s.spans && t.lsn == s.lsn && t.start == s.start
            && t.eng.rotating == None && t.eng.seg.start == s.eng.rotating.value
  {
    hide SentAll, RaiseAll, Freed;
  }

  // ---- Names ascend ----

  /** The segment the engine is on, or is about to open, when it takes the next message. */
  function Bound(e: Engine): nat { if e.rotating.Some? then e.rotating.value else e.seg.start }

  /** And once it has taken all that is in the channel. */
  function Onto(base: nat, chan: seq<WalMsg>): nat
    decreases |chan|
  {
    if chan == [] then base else Onto(if chan[0].RotateMsg? then chan[0].boundary else base, chan[1..])
  }

  /** Each Rotate goes forward, and each Retire stays at or below the segment it will find active. */
  ghost predicate Sane(base: nat, chan: seq<WalMsg>)
    decreases |chan|
  {
    chan == [] ||
    match chan[0]
    case WriteMsg(_) => Sane(base, chan[1..])
    case RotateMsg(b) => base <= b && Sane(b, chan[1..])
    case RetireMsg(b) => b <= base && Sane(base, chan[1..])
  }

  lemma {:induction false} OntoAhead(base: nat, chan: seq<WalMsg>)
    requires Sane(base, chan)
    ensures base <= Onto(base, chan)
    decreases |chan|
  {
    if chan != [] { OntoAhead(if chan[0].RotateMsg? then chan[0].boundary else base, chan[1..]); }
  }

  lemma {:induction false} SaneSnoc(base: nat, chan: seq<WalMsg>, m: WalMsg)
    requires Sane(base, chan)
    requires m.RotateMsg? ==> Onto(base, chan) <= m.boundary
    requires m.RetireMsg? ==> m.boundary <= Onto(base, chan)
    ensures Sane(base, chan + [m])
    ensures Onto(base, chan + [m]) == if m.RotateMsg? then m.boundary else Onto(base, chan)
    decreases |chan|
  {
    if chan == [] {
      assert (chan + [m])[1..] == [];
    } else {
      assert (chan + [m])[0] == chan[0] && (chan + [m])[1..] == chan[1..] + [m];
      SaneSnoc(if chan[0].RotateMsg? then chan[0].boundary else base, chan[1..], m);
    }
  }

  /** Stage 2's next Rotate will not go back either. */
  ghost predicate AscendInv(s: State) {
    && s.start <= s.lsn && s.eng.seg.start <= Bound(s.eng) && Sane(Bound(s.eng), s.chan)
    && (Onto(Bound(s.eng), s.chan) <= s.start || Onto(Bound(s.eng), s.chan) < s.lsn)
  }

  lemma AscendPost(s: State, m: WalMsg)
    requires AscendInv(s)
    requires m.RotateMsg? ==> s.start < s.lsn && m.boundary == s.lsn - 1
    requires m.RetireMsg? ==> m.boundary <= Onto(Bound(s.eng), s.chan)
    ensures AscendInv(s.(chan := s.chan + [m]))
    ensures Onto(Bound(s.eng), s.chan) <= Onto(Bound(s.eng), s.chan + [m])
  {
    SaneSnoc(Bound(s.eng), s.chan, m);
  }

  lemma AscendTake(s: State, reqs: seq<Req>)
    requires AscendInv(s) && CanTake(s, reqs)
    ensures var t := TakeBatch(s, reqs); AscendInv(t) && Onto(Bound(t.eng), t.chan) == Onto(Bound(s.eng), s.chan)
  {
    hide TakeBatch, CanTake, Sane, Onto;
    StepTake(s, reqs);
    var t := TakeBatch(s, reqs);
    if t.chan != s.chan {
      assert t.chan == s.chan + [t.chan[|s.chan|]];
      SaneSnoc(Bound(s.eng), s.chan, t.chan[|s.chan|]);
    }
  }

  lemma AscendReceive(s: State)
    requires AscendInv(s) && CanReceive(s)
    ensures var t := ReceiveMsg(s); AscendInv(t) && Onto(Bound(t.eng), t.chan) == Onto(Bound(s.eng), s.chan)
  {
    hide ReceiveMsg, CanReceive;
    assert s.chan != [] && s.eng.rotating.None? by { ReceiveNeeds(s); }
    StepReceive(s);
  }

  lemma ReceiveNeeds(s: State)
    requires CanReceive(s)
    ensures s.chan != [] && s.eng.rotating.None?
  {
  }

  /** Each step keeps the names ascending, and never lowers the last one. */
  lemma AscendStep(s: State, step: Step)
    requires AscendInv(s) && Enabled(s, step)
    requires PostsRotate(step) ==> s.start < s.lsn && step.msg.boundary == s.lsn - 1
    requires step.Post? && step.msg.RetireMsg? ==> step.msg.boundary <= Onto(Bound(s.eng), s.chan)
    ensures var t := Next(s, step); AscendInv(t) && Onto(Bound(s.eng), s.chan) <= Onto(Bound(t.eng), t.chan)
  {
    hide Sane, Onto, CanTake, TakeBatch, CanReceive, ReceiveMsg, CanFinishRotate, Rotate, ReapHead, CanReap, DoWrite,
         DoFsync, DoRemove, CanWrite, CanFsync, CanRemove, Arm, CanSubmit, AscendInv;
    match step
    case Take(reqs) => AscendTake(s, reqs);
    case Post(m) => AscendPost(s, m);
    case Receive => AscendReceive(s);
    case FinishRotate => AscendRotate(s);
    case _ => AscendIdle(s, step);
  }

  lemma AscendRotate(s: State)
    requires AscendInv(s) && CanFinishRotate(s)
    ensures var t := Rotate(s); AscendInv(t) && Onto(Bound(t.eng), t.chan) == Onto(Bound(s.eng), s.chan)
  {
    hide Rotate, Sane, Onto;
    StepRotate(s);
  }

  lemma AscendIdle(s: State, step: Step)
    requires AscendInv(s) && Enabled(s, step)
    requires !step.Take? && !step.Post? && !step.Receive? && !step.FinishRotate?
    ensures var t := Next(s, step); AscendInv(t) && Onto(Bound(t.eng), t.chan) == Onto(Bound(s.eng), s.chan)
  {
    hide Enabled, Next, Sane, Onto;
    StepIdle(s, step);
  }

  lemma AscendInit(s: State)
    requires Init(s)
    ensures AscendInv(s)
  {
  }

  /** Where the engine will be, at each point of the run, is at or past every Rotate posted before. */
  ghost predicate PastPosted(states: seq<State>, steps: seq<Step>, i: nat)
    requires i <= |steps| < |states|
  {
    forall j :: 0 <= j < i && PostsRotate(steps[j]) ==>
      steps[j].msg.boundary <= Onto(Bound(states[i].eng), states[i].chan)
  }

  lemma {:induction false} AscendAlways(states: seq<State>, steps: seq<Step>, i: nat)
    requires CompactingRun(states, steps) && i <= |steps|
    ensures AscendInv(states[i]) && PastPosted(states, steps, i)
  {
    hide Init, Enabled, Next, AscendInv, Onto;
    if i == 0 {
      AscendInit(states[0]);
    } else {
      AscendAlways(states, steps, i - 1);
      assert AsSent(states, steps, i - 1);
      AscendStep(states[i - 1], steps[i - 1]);
      if PostsRotate(steps[i - 1]) { PostedOnto(states[i - 1], steps[i - 1]); }
    }
  }

  lemma PostedOnto(s: State, step: Step)
    requires AscendInv(s) && Enabled(s, step) && PostsRotate(step) && s.start < s.lsn && step.msg.boundary == s.lsn - 1
    ensures var t := Next(s, step); Onto(Bound(t.eng), t.chan) == step.msg.boundary
  {
    SaneSnoc(Bound(s.eng), s.chan, step.msg);
  }

  /** No rotation goes back to a lower name. */
  lemma CompactingForward(states: seq<State>, steps: seq<Step>)
    requires CompactingRun(states, steps)
    ensures ForwardRun(states, steps)
  {
    hide Init, Enabled, Next, Sane, Onto, PastPosted;
    forall i | 0 <= i < |steps| ensures Forward(states[i], steps[i]) {
      AscendAlways(states, steps, i);
      if steps[i].FinishRotate? { RotateNeeds(states[i], steps[i]); }
    }
  }

  lemma RotateNeeds(s: State, step: Step)
    requires Enabled(s, step) && step.FinishRotate?
    ensures s.eng.rotating.Some?
  {
  }

  /**
   The panic in `retire`, which would unlink the active segment, is unreachable, and so are the assertions
   of `handle_batch`: stage 3 can always take the next message.
   */
  lemma NeverPanics(states: seq<State>, steps: seq<Step>, i: nat)
    requires CompactingRun(states, steps) && i <= |steps|
    requires states[i].eng.rotating.None? && states[i].chan != []
    ensures CanReceive(states[i])
  {
    hide Init, Enabled, Next, PastPosted, RouteInv, BatchInv, LineInv, PlanOk, ResultsOk, DurableInv, ReplyInv, OutInv,
         Buffers.BufferInv, ContentInv, LineOf;
    var s := states[i];
    AscendAlways(states, steps, i);
    InvAlways(states, steps, i);
    if s.chan[0].WriteMsg? { AssertionsHold(s); }
  }

  // ---- What a sealed segment holds ----

  /** Each Rotate comes behind at most the first `n` batches, `k` of which have been taken already. */
  ghost predicate Behind(chan: seq<WalMsg>, k: nat, n: nat) {
    chan == [] ||
    match chan[0]
    case WriteMsg(_) => Behind(chan[1..], k + 1, n)
    case RotateMsg(_) => k <= n && Behind(chan[1..], k, n)
    case RetireMsg(_) => Behind(chan[1..], k, n)
  }

  lemma {:induction false} BehindSnoc(chan: seq<WalMsg>, k: nat, n: nat, n': nat, m: WalMsg)
    requires Behind(chan, k, n) && n <= n' && (m.RotateMsg? ==> k + |WritesIn(chan)| <= n')
    ensures Behind(chan + [m], k, n')
  {
    if chan == [] {
      assert (chan + [m])[1..] == [];
    } else {
      assert (chan + [m])[0] == chan[0] && (chan + [m])[1..] == chan[1..] + [m];
      BehindSnoc(chan[1..], if chan[0].WriteMsg? then k + 1 else k, n, n', m);
    }
  }

  /** Only the first `n` batches are in segments that are sealed, or will be by a Rotate under way. */
  ghost predicate SealedInv(s: State, n: nat) {
    && n <= |s.spans|
    && (forall k :: 0 <= k < |s.locs| && s.locs[k].ino != s.eng.seg.ino ==> k < n)
    && (s.eng.rotating.Some? ==> |s.locs| <= n)
    && Behind(s.chan, |s.locs|, n)
  }

  /** How many batches stage 2 had sent when it last posted a Rotate. */
  ghost function SentBefore(states: seq<State>, steps: seq<Step>, i: nat): nat
    requires i <= |steps| < |states|
  {
    if i == 0 then 0 else if PostsRotate(steps[i - 1]) then |states[i - 1].spans| else SentBefore(states, steps, i - 1)
  }

  lemma ChannelCount(s: State)
    requires BatchInv(s)
    ensures |s.locs| + |WritesIn(s.chan)| == |s.spans|
  {
    hide HistoryOk, SpansOk, WritesOk, WaitersOk, BatchAt, LineOf, WritesIn;
  }

  lemma SealedPost(s: State, n: nat, m: WalMsg)
    requires SealedInv(s, n) && BatchInv(s)
    ensures SealedInv(s.(chan := s.chan + [m]), if m.RotateMsg? then |s.spans| else n)
  {
    hide BatchInv, WritesIn;
    ChannelCount(s);
    BehindSnoc(s.chan, |s.locs|, n, if m.RotateMsg? then |s.spans| else n, m);
  }

  lemma SealedTake(s: State, n: nat, reqs: seq<Req>)
    requires SealedInv(s, n) && CanTake(s, reqs)
    ensures SealedInv(TakeBatch(s, reqs), n)
  {
    hide TakeBatch, CanTake, Behind, WritesIn;
    StepTake(s, reqs);
    StepGrows(s, Take(reqs));
    var t := TakeBatch(s, reqs);
    if t.chan != s.chan {
      assert t.chan == s.chan + [t.chan[|s.chan|]];
      BehindSnoc(s.chan, |s.locs|, n, n, t.chan[|s.chan|]);
    }
  }

  lemma SealedReceive(s: State, n: nat)
    requires SealedInv(s, n) && CanReceive(s)
    ensures SealedInv(ReceiveMsg(s), n)
  {
    hide ReceiveMsg, CanReceive;
    assert s.chan != [] && s.eng.rotating.None? by { ReceiveNeeds(s); }
    StepReceive(s);
    var t := ReceiveMsg(s);
    forall k | 0 <= k < |t.locs| && t.locs[k].ino != t.eng.seg.ino ensures k < n {
      if k < |s.locs| { assert t.locs[k] == t.locs[..|s.locs|][k]; }
    }
  }

  lemma SealedRotate(s: State, n: nat)
    requires SealedInv(s, n) && CanFinishRotate(s)
    ensures SealedInv(Rotate(s), n)
  {
    hide Rotate, Behind;
    StepRotate(s);
  }

  lemma SealedStep(s: State, step: Step, n: nat)
    requires SealedInv(s, n) && BatchInv(s) && Enabled(s, step)
    ensures SealedInv(Next(s, step), if PostsRotate(step) then |s.spans| else n)
  {
    hide CanTake, TakeBatch, CanReceive, ReceiveMsg, CanFinishRotate, Rotate, ReapHead, CanReap, DoWrite, DoFsync,
         DoRemove, CanWrite, CanFsync, CanRemove, Arm, CanSubmit, SealedInv, BatchInv;
    match step
    case Take(reqs) => SealedTake(s, n, reqs);
    case Post(m) => SealedPost(s, n, m);
    case Receive => SealedReceive(s, n);
    case FinishRotate => SealedRotate(s, n);
    case _ => SealedIdle(s, step, n);
  }

  lemma SealedIdle(s: State, step: Step, n: nat)
    requires SealedInv(s, n) && Enabled(s, step)
    requires !step.Take? && !step.Post? && !step.Receive? && !step.FinishRotate?
    ensures SealedInv(Next(s, step), n)
  {
    hide Enabled, Next, Behind;
    StepIdle(s, step);
  }

  lemma SealedInit(s: State)
    requires Init(s)
    ensures SealedInv(s, 0)
  {
  }

  lemma {:induction false} SealedAlways(states: seq<State>, steps: seq<Step>, i: nat)
    requires IsRun(states, steps) && i <= |steps|
    ensures SealedInv(states[i], SentBefore(states, steps, i))
  {
    hide Init, Enabled, Next, SealedInv, RouteInv, BatchInv, IoInv, DurableInv, ReplyInv, OutInv, Buffers.BufferInv,
         ContentInv;
    if i == 0 {
      SealedInit(states[0]);
    } else {
      SealedAlways(states, steps, i - 1);
      InvAlways(states, steps, i - 1);
      SealedStep(states[i - 1], steps[i - 1], SentBefore(states, steps, i - 1));
    }
  }

  // ---- What is unlinked is covered ----

  /** If no Rotate was posted after the snapshot, all batches in sealed segments were sent before it. */
  lemma {:induction false} SentBySnapshot(states: seq<State>, steps: seq<Step>, p: nat, i: nat)
    requires IsRun(states, steps) && p <= i <= |steps| && forall j :: p < j < |steps| ==> !PostsRotate(steps[j])
    ensures SentBefore(states, steps, i) <= |states[p].spans|
    decreases i
  {
    hide Init, Enabled, Next, PostsRotate;
    if p + 1 < i {
      SentBySnapshot(states, steps, p, i - 1);
    } else {
      SentWithin(states, steps, p);
    }
  }

  lemma SentWithin(states: seq<State>, steps: seq<Step>, i: nat)
    requires IsRun(states, steps) && i <= |steps|
    ensures SentBefore(states, steps, i) <= |states[i].spans|
  {
    hide Init, Enabled, Next, Behind, SentBefore;
    SealedAlways(states, steps, i);
  }

  /** Batches sent by the time the LSN was `w` have no record above it. */
  lemma {:induction false} FileUpTo(s: State, ino: nat, n: nat, count: nat, w: nat)
    requires HistoryOk(s) && SpansOk(s) && SpansFit(s) && n <= |s.locs| && count <= |s.spans|
    requires forall k :: 0 <= k < n && s.locs[k].ino == ino ==> k < count
    requires forall k :: 0 <= k < count ==> s.spans[k].hi <= w
    ensures UpTo(RecsIn(s, ino, n), w)
  {
    hide HistoryOk, SpansOk, SpanRecs;
    if n > 0 {
      FileUpTo(s, ino, n - 1, count, w);
      SpanLsns(s, n - 1);
    }
  }

  /** At the time of the snapshot, no batch sent went past stage 2's LSN, and the spans recorded stay as they are. */
  lemma SpansBelow(s: State, t: State)
    requires BatchInv(s) && Grows(s, t)
    ensures forall k :: 0 <= k < |s.spans| ==> t.spans[k].hi <= s.lsn
  {
    hide BatchInv;
    HistoryFromBatch(s);
    forall k | 0 <= k < |s.spans| ensures s.spans[k].hi <= s.lsn { SpanBelow(s, k); }
  }

  lemma {:induction false} SpanBelow(s: State, k: nat)
    requires HistoryOk(s) && SpansOk(s) && k < |s.spans|
    ensures s.spans[k].hi <= s.lsn
    decreases |s.spans| - k
  {
    hide RecsOf, WellFormed, Exec, SpanOk;
    if k + 1 < |s.spans| {
      SpanNext(s, k);
      SpanBelow(s, k + 1);
    }
  }

  lemma SpanNext(s: State, k: nat)
    requires AllWellFormed(s.hist) && SpansOk(s) && k + 1 < |s.spans|
    ensures s.spans[k].hi <= s.spans[k + 1].hi
  {
    hide RecsOf, WellFormed;
    assert SpanOk(s, s.spans[k + 1]) && s.spans[(k + 1) - 1].hi == s.spans[k + 1].lo;
  }

  /** An unlinked name belonged to a segment that had been sealed. */
  lemma UnlinkedSealed(files: seq<File>, full: map<nat, nat>, dir: map<nat, nat>, seg: Segment, n: nat)
    requires Shelved(files, full, seg) && seg.start in dir && n in full && n !in dir
    ensures full[n] != seg.ino
  {
  }

  lemma UnlinkedCovered(states: seq<State>, steps: seq<Step>, p: nat, snapLsn: nat, at0: Progress)
    requires CompactingRun(states, steps) && CleanStart(states[0], snapLsn, at0)
    requires p <= |steps| && forall j :: p < j < |steps| ==> !PostsRotate(steps[j])
    ensures var s, full := states[|steps|], Seen(states, |steps|);
            DirOk(s.ker.files, full) && UnlinkedUpTo(s.ker.files, full, s.ker.dir, states[p].lsn)
  {
    hide Init, Enabled, Next, CleanStart, TidyInv, RouteInv, BatchInv, IoInv, DurableInv, ReplyInv, OutInv,
         Buffers.BufferInv, ContentInv, Seen, AsSent, Behind, HistoryOk, SpansOk, WatermarkOk, RecsIn, UpTo, Forward,
         SentBefore, Submap, PlacesNamed, BaseSafe, Shelved;
    var n, s, full := |steps|, states[|steps|], Seen(states, |steps|);
    CompactingForward(states, steps);
    TidyAlways(states, steps, n, snapLsn, at0);
    InvAlways(states, steps, n);
    InvAlways(states, steps, p);
    TidyBasics(s, full, snapLsn, at0);
    SegmentNamed(s);
    HistoryFromBatch(s);
    SealedAlways(states, steps, n);
    SentBySnapshot(states, steps, p, n);
    RunGrows(states, steps, p, n);
    SpansBelow(states[p], s);
    forall x | x in full && x !in s.ker.dir ensures UpTo(s.ker.files[full[x]].recs, states[p].lsn) {
      UnlinkedSealed(s.ker.files, full, s.ker.dir, s.eng.seg, x);
      ContentFile(s, full[x]);
      FileUpTo(s, full[x], |s.locs|, SentBefore(states, steps, n), states[p].lsn);
    }
  }

  /**
   The snapshot taken at state `p`, with no Rotate posted later, covers every segment unlinked since: what
   the theorems on compaction ask of the last state follows from the messages alone.
   */
  lemma CompactedAlways(states: seq<State>, steps: seq<Step>, p: nat, snapLsn: nat, at0: Progress)
    requires CompactingRun(states, steps) && CleanStart(states[0], snapLsn, at0)
    requires p <= |steps| && forall j :: p < j < |steps| ==> !PostsRotate(steps[j])
    ensures var s, c := states[|steps|], |states[p].hist|;
            && 0 < states[p].lsn && c <= |s.hist| && AllWellFormed(s.hist)
            && states[p].db == Exec(s.db0, s.hist[..c])
            && states[p].lsn == s.start + |RecsOf(s.start, s.hist[..c])|
            && Compacted(s, Seen(states, |steps|), c, states[p].lsn - 1)
  {
    hide Init, Enabled, Next, CleanStart, RouteInv, BatchInv, IoInv, DurableInv, ReplyInv, OutInv, Buffers.BufferInv,
         ContentInv, Seen, AsSent, SpansOk, WatermarkOk, RecsOf, Exec, WellFormed, UnlinkedUpTo;
    var n, s := |steps|, states[|steps|];
    UnlinkedCovered(states, steps, p, snapLsn, at0);
    InvAlways(states, steps, n);
    InvAlways(states, steps, p);
    HistoryFromBatch(s);
    HistoryFromBatch(states[p]);
    RunGrows(states, steps, p, n);
    RunGrows(states, steps, 0, p);
    assert s.hist[..|states[p].hist|] == states[p].hist;
    assert s.start > 0 by { StartPositive(states[0], snapLsn, at0); }
  }

  lemma StartPositive(s: State, snapLsn: nat, at0: Progress)
    requires CleanStart(s, snapLsn, at0)
    ensures s.start > 0
  {
  }

  // ---- The theorems ----

  /**
   Crash recovery under compaction as stage 2 carries it out. The snapshot on disk was taken at state `p`,
   at or after the last Rotate was posted. Retires may have been carried out in any part. Whatever the crash
   did to bytes that are not fsynced, if the first record it broke fails to decode, recovery returns the
   state after a prefix of the requests that has everything the snapshot has and every batch that is safe.
   */
  lemma CompactionRecovers(states: seq<State>, steps: seq<Step>, p: nat, snapLsn: nat, snapDb: Kv,
                           snap: Option<bytes>, imgs: seq<bytes>) returns (m: nat, next: nat)
    requires CompactingRun(states, steps) && CleanStart(states[0], snapLsn, Progress(snapDb, snapLsn))
    requires p <= |steps| && forall j :: p < j < |steps| ==> !PostsRotate(steps[j])
    requires states[p].lsn > 0 && Base(snap) == Some((states[p].lsn - 1, states[p].db))
    requires states[|steps|].lsn < U64 && AllSurvive(states[|steps|], imgs) && Legible(states[|steps|], imgs)
    ensures var s := states[|steps|];
            && m <= |s.hist| && |s.locs| <= |s.spans| && AllWellFormed(s.hist)
            && RecoverFrom(snap, imgs) == Recovered(Exec(s.db0, s.hist[..m]), next)
            && states[p].lsn <= s.start + |RecsOf(s.start, s.hist[..m])| <= next
            && (forall k: nat :: k < |s.locs| && Safe(s, k) ==> PutsWithin(s, k, m))
  {
    hide Init, Enabled, Next, CleanStart, RouteInv, BatchInv, IoInv, DurableInv, ReplyInv, OutInv, Buffers.BufferInv,
         ContentInv, Seen, AsSent, SpansOk, WatermarkOk, RecsOf, Exec, WellFormed, Base, RecoverFrom, AllSurvive,
         Legible, Safe, PutsWithin, PostsRotate;
    var s, c := states[|steps|], |states[p].hist|;
    CompactingForward(states, steps);
    CompactedAlways(states, steps, p, snapLsn, Progress(snapDb, snapLsn));
    m, next := RetiredRecovers(states, steps, snapLsn, snapDb, snap, states[p].lsn - 1, c, imgs);
  }

  /** In Sync mode and without short or retried writes, that prefix has every PUT already answered. */
  lemma CompactionAnswered(states: seq<State>, steps: seq<Step>, p: nat, snapLsn: nat, snapDb: Kv,
                           snap: Option<bytes>, imgs: seq<bytes>) returns (m: nat, next: nat)
    requires CompactingRun(states, steps) && CleanStart(states[0], snapLsn, Progress(snapDb, snapLsn))
    requires CalmRun(states, steps) && states[|steps|].eng.mode == Sync
    requires p <= |steps| && forall j :: p < j < |steps| ==> !PostsRotate(steps[j])
    requires states[p].lsn > 0 && Base(snap) == Some((states[p].lsn - 1, states[p].db))
    requires states[|steps|].lsn < U64 && CrashImages(states[|steps|], imgs)
    ensures var s := states[|steps|];
            && m <= |s.hist| && AllWellFormed(s.hist)
            && RecoverFrom(snap, imgs) == Recovered(Exec(s.db0, s.hist[..m]), next)
            && forall id: nat :: id < |s.hist| && Answered(s, id) && IsPut(s.hist[id]) ==>
              id < m && LsnOf(s, id) <= next
  {
    hide Init, Enabled, Next, CleanStart, Seen, AsSent, RecsOf, Exec, WellFormed, Base, RecoverFrom, CrashImages,
         PostsRotate, Compacted, Answered, Calm;
    CompactedAlways(states, steps, p, snapLsn, Progress(snapDb, snapLsn));
    m, next :=
      RetiredAnswered(states, steps, snapLsn, snapDb, snap, states[p].lsn - 1, |states[p].hist|, imgs);
  }

  /** Without a crash, once the channel is drained and no write outstanding, it returns the map stage 2 holds. */
  lemma CompactionQuiet(states: seq<State>, steps: seq<Step>, p: nat, snapLsn: nat, snapDb: Kv,
                        snap: Option<bytes>, segs: seq<bytes>) returns (next: nat)
    requires CompactingRun(states, steps) && CleanStart(states[0], snapLsn, Progress(snapDb, snapLsn))
    requires p <= |steps| && forall j :: p < j < |steps| ==> !PostsRotate(steps[j])
    requires states[p].lsn > 0 && Base(snap) == Some((states[p].lsn - 1, states[p].db))
    requires var s := states[|steps|]; NoWrites(s) && WritesIn(s.chan) == [] && s.lsn < U64 && SegmentData(s, segs)
    ensures var s := states[|steps|]; RecoverFrom(snap, segs) == Recovered(s.db, next) && s.lsn <= next
  {
    hide Init, Enabled, Next, CleanStart, Seen, AsSent, RecsOf, Exec, WellFormed, Base, RecoverFrom, NoWrites,
         WritesIn, SegmentData, PostsRotate, Compacted;
    CompactingForward(states, steps);
    CompactedAlways(states, steps, p, snapLsn, Progress(snapDb, snapLsn));
    next := RetiredQuiet(states, steps, snapLsn, snapDb, snap, states[p].lsn - 1, |states[p].hist|, segs);
  }
}
