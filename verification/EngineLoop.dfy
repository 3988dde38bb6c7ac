/**
 The order in which the WAL engine's loop takes its steps (`start`, crates/server/src/stage3/mod.rs): take at
 most one message, evaluate the planner, submit until `pending` is empty or the ring full, reap what has
 completed. The theorems hold under any interleaving; the runs of `Witness` are shown to keep this order.
 */
module EngineLoop {
  import opened Pipeline

  /** Where the engine is in its loop. */
  datatype Phase = Polling | Evaluating | Submitting | Reaping

  /** `should_park`: nothing pending and nothing in the ring. */
  ghost predicate ShouldPark(s: State) { s.eng.pending == [] && s.ker.ops == [] && s.ker.cq == [] }

  /** `handle_pending` has nothing left to move, or no room. */
  ghost predicate SubmitDone(s: State) { s.eng.pending == [] || |s.ker.ops| + |s.ker.cq| >= s.eng.depth }

  /** The engine may be at the top of its loop: it has submitted what it could and reaped what there was. */
  ghost predicate AtTop(s: State, ph: Phase) {
    || ph.Polling?
    || (ph.Submitting? && SubmitDone(s) && s.ker.cq == [])
    || (ph.Reaping? && s.ker.cq == [])
  }

  /**
   A step in loop order. A message is taken at the top only, and passed over only if there is none and the
   engine need not park. What is submitted reaches the kernel at the end of the iteration, so the kernel's
   steps come at the top too. Stage 2 runs beside the loop.
   */
  ghost predicate LoopStep(s: State, ph: Phase, step: Step, ph': Phase) {
    match step
    case Take(_) => ph' == ph
    case Post(_) => ph' == ph
    case Receive => AtTop(s, ph) && ph' == Evaluating
    case ArmFsync => (ph.Evaluating? || (AtTop(s, ph) && s.chan == [] && !ShouldPark(s))) && ph' == Submitting
    case Submit => ph.Submitting? && ph' == Submitting
    case KernelWrite(_, _) => AtTop(s, ph) && ph' == Polling
    case KernelFsync => AtTop(s, ph) && ph' == Polling
    case FailFsync(_) => AtTop(s, ph) && ph' == Polling
    case KernelRemove(_, _) => AtTop(s, ph) && ph' == Polling
    case ReapCqe => ((ph.Submitting? && SubmitDone(s)) || ph.Reaping?) && ph' == Reaping
    case FinishRotate => false
  }

  ghost predicate InLoop(states: seq<State>, steps: seq<Step>, phases: seq<Phase>) {
    && |states| == |phases| == |steps| + 1 && phases[0] == Polling
    && forall i :: 0 <= i < |steps| ==> LoopStep(states[i], phases[i], steps[i], phases[i + 1])
  }

  /** The engine's steps come in the order its loop takes them. */
  ghost predicate FollowsLoop(states: seq<State>, steps: seq<Step>) {
    exists phases :: InLoop(states, steps, phases)
  }
}
