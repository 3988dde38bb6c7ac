/** When to arm an fsync (crates/server/src/stage3/fsync_planner.rs). */
module FsyncPlanner {
  import opened Types

  datatype Cadence = Never | Consistently | PerBytes(limit: nat)

  datatype Plan = Plan(cadence: Cadence, dirty: nat, flushing: bool)

  function CadenceOf(mode: Mode): Cadence {
    match mode
    case NoFsync => Never
    case Sync => Consistently
    case Async => PerBytes(0x10_0000)
  }

  predicate ShouldFsync(p: Plan) {
    p.dirty > 0 &&
    match p.cadence
    case Never => false
    case Consistently => !p.flushing
    case PerBytes(limit) => p.dirty >= limit
  }

  /** By mode: NoFsync never, Sync as soon as anything is dirty and no flush runs, Async at 1 MiB. */
  lemma DueByMode(mode: Mode, dirty: nat, flushing: bool)
    ensures ShouldFsync(Plan(CadenceOf(mode), dirty, flushing)) <==>
            (mode == Sync && dirty > 0 && !flushing) || (mode == Async && dirty >= 0x10_0000)
  {
  }

  function Armed(p: Plan): Plan {
    if ShouldFsync(p) then p.(dirty := 0, flushing := true) else p
  }

  class Planner {
    const cadence: Cadence
    var dirtyBytes: nat
    var flushRunning: bool

    function View(): Plan
      reads this
    {
      Plan(cadence, dirtyBytes, flushRunning)
    }

    constructor (mode: Mode)
      ensures View() == Plan(CadenceOf(mode), 0, false)
    {
      cadence := CadenceOf(mode);
      dirtyBytes, flushRunning := 0, false;
    }

    /** A `true` answer consumes the window: nothing is dirty any more, and a flush is running. */
    method Poll() returns (due: bool)
      modifies this
      ensures due == ShouldFsync(old(View())) && View() == Armed(old(View()))
      ensures due <==>
        || (cadence == Consistently && old(dirtyBytes) > 0 && !old(flushRunning))
        || (cadence.PerBytes? && old(dirtyBytes) > 0 && old(dirtyBytes) >= cadence.limit)
      ensures due ==> dirtyBytes == 0 && flushRunning
      ensures !due && cadence.PerBytes? && cadence.limit > 0 ==> dirtyBytes < cadence.limit
    {
      if dirtyBytes == 0 {
        return false;
      }
      match cadence {
        case Never => due := false;
        case Consistently => due := !flushRunning;
        case PerBytes(limit) => due := dirtyBytes >= limit;
      }
      if due {
        dirtyBytes := 0;
        flushRunning := true;
      }
    }

    method OnFsyncCompleted()
      modifies this
      ensures View() == old(View()).(flushing := false)
    {
      flushRunning := false;
    }

    method OnWriteQueued(n: nat)
      modifies this
      ensures View() == old(View()).(dirty := old(dirtyBytes) + n)
    {
      dirtyBytes := dirtyBytes + n;
    }
  }
}
