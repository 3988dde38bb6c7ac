/** One unit of WAL I/O and how it ends (crates/server/src/stage3/io_work.rs). */
module IoWork {
  import opened Bytes
  import opened Types

  const EINTR: int := 4
  const EAGAIN: int := 11

  /** `Remove` names a segment by its start LSN instead of its path. */
  datatype Work = Write(batch: Batch, offset: nat, done: nat) | Fsync(target: nat) | Remove(name: nat)

  datatype Verdict = Finished(batch: Option<Batch>) | Retry(work: Work) | Flushed | Fatal

  function Complete(w: Work, res: int): Verdict {
    match w
    case Write(batch, offset, done) =>
      if res == -EINTR || res == -EAGAIN then Retry(w) else
      if res < 0 then Fatal else
      if done + res < |batch.out| then Retry(w.(done := done + res)) else Finished(Some(batch))
    case Fsync(_) => if res < 0 then Fatal else Flushed
    case Remove(_) => Finished(None)
  }

  /** What the kernel may report for a write of the remaining bytes: any error, or a count. */
  predicate WriteResult(w: Work, res: int)
    requires w.Write? && w.done <= |w.batch.out|
  {
    res <= |w.batch.out| - w.done
  }

  /** How far into its batch a write has got once the kernel has reported `res`. */
  function Reached(w: Work, res: int): nat
    requires w.Write?
  {
    if res > 0 then w.done + res else w.done
  }

  /** An error that the engine halts at: any of an fsync, and of a write any but EINTR (4) and EAGAIN (11). */
  predicate Broken(w: Work, res: int) { res < 0 && (w.Fsync? || (w.Write? && res != -4 && res != -11)) }

  /**
   How each operation ends, whatever the kernel reports. Exactly the errors above are fatal. A retry resumes
   at the first unwritten byte, only a fully written batch is handed back, an fsync that did not fail is a
   flush, and an unlink ends however it went.
   */
  lemma CompleteExactly(w: Work, res: int)
    ensures Complete(w, res) == Fatal <==> Broken(w, res)
    ensures Complete(w, res) == Flushed <==> w.Fsync? && res >= 0
    ensures w.Remove? ==> Complete(w, res) == Finished(None)
    ensures w.Write? && !Broken(w, res) ==>
      Complete(w, res) == if res < 0 || w.done + res < |w.batch.out| then Retry(w.(done := Reached(w, res)))
                          else Finished(Some(w.batch))
  {
  }

  /** The same for a write under way. */
  lemma CompleteResumes(w: Work, res: int)
    requires w.Write? && w.done < |w.batch.out| && WriteResult(w, res) && !Broken(w, res)
    ensures Reached(w, res) < |w.batch.out| <==> Complete(w, res) == Retry(w.(done := Reached(w, res)))
    ensures Reached(w, res) == |w.batch.out| <==> Complete(w, res) == Finished(Some(w.batch))
  {
  }
}
