/**
 The WAL engine as the object it is (crates/server/src/stage3/mod.rs, segment.rs): fields updated in
 place by loops. Each method is shown to carry out the corresponding function of `WalCore`, which is what
 `Pipeline` runs, and the slab is shown to give each completion back the work it was submitted for.
 */
module WalEngine {
  import opened Bytes
  import opened Types
  import opened Wire
  import opened WalFormat
  import opened Recovery
  import opened Stage2
  import opened Acker
  import opened IoWork
  import opened FsyncPlanner
  import opened WalCore
  import opened Pipeline
  import opened Names

  /** A segment opened for writing at the end of what its file holds. */
  class OpenSegment {
    const start: nat
    const ino: nat
    var offset: nat

    function View(): Segment
      reads this
    {
      Segment(start, ino, offset)
    }

    constructor (start: nat, ino: nat, fileLen: nat)
      ensures View() == Segment(start, ino, fileLen)
    {
      this.start, this.ino, offset := start, ino, fileLen;
    }

    /** Reserves the next `n` bytes and returns the range. */
    method AdvanceOffset(n: nat) returns (before: nat, after: nat)
      modifies this
      ensures before == old(offset) && after == offset == before + n
    {
      before := offset;
      offset := offset + n;
      after := offset;
    }
  }

  /** An entry handed to the ring: the slab index as `user_data`, the descriptor, and the work it was built from. */
  datatype Sqe = Sqe(key: nat, fd: nat, work: Work)

  /** A completion: which slab index it answers, and its result. */
  datatype Done = Done(key: nat, res: int)

  // ---- Reaping a run of completions ----

  ghost predicate NoneBroken(cs: seq<Cqe>) {
    forall i :: 0 <= i < |cs| ==> WorkWellFormed(cs[i].work) && !Broken(cs[i].work, cs[i].res)
  }

  function ReapAll(e: Engine, cs: seq<Cqe>): (y: Yield)
    requires BatchesWellFormed(e.awaiting) && NoneBroken(cs)
    ensures BatchesWellFormed(y.eng.awaiting)
    decreases |cs|
  {
    if cs == [] then Yield(e, [], []) else
    var n := |cs| - 1;
    var y := ReapAll(e, cs[..n]);
    ReapKeepsWellFormed(y.eng, cs[n].work, cs[n].res);
    var z := Reap(y.eng, cs[n].work, cs[n].res);
    Yield(z.eng, y.sent + z.sent, y.freed + z.freed)
  }

  lemma ReapNone(e: Engine, cs: seq<Cqe>)
    requires BatchesWellFormed(e.awaiting)
    ensures NoneBroken(cs[..0]) && ReapAll(e, cs[..0]) == Yield(e, [], [])
  {
  }

  /** Reaping one completion more. */
  lemma ReapNext(e: Engine, cs: seq<Cqe>, n: nat)
    requires BatchesWellFormed(e.awaiting) && n < |cs| && NoneBroken(cs[..n])
    requires WorkWellFormed(cs[n].work) && !Broken(cs[n].work, cs[n].res)
    ensures NoneBroken(cs[..n + 1])
    ensures var y := ReapAll(e, cs[..n]);
            var z := Reap(y.eng, cs[n].work, cs[n].res);
            ReapAll(e, cs[..n + 1]) == Yield(z.eng, y.sent + z.sent, y.freed + z.freed)
  {
    hide WellFormed, Reap, Complete;
    assert cs[..n + 1][..n] == cs[..n] && cs[..n + 1][n] == cs[n];
    assert forall i :: 0 <= i < n ==> cs[..n + 1][i] == cs[..n][i];
  }

  lemma BrokenFound(cs: seq<Cqe>, n: nat)
    requires n < |cs| && Broken(cs[n].work, cs[n].res)
    ensures !NoneBroken(cs)
  {
  }

  lemma ReapKeepsWellFormed(e: Engine, w: Work, res: int)
    requires BatchesWellFormed(e.awaiting) && WorkWellFormed(w) && Complete(w, res) != Fatal
    ensures var y := Reap(e, w, res);
            && BatchesWellFormed(y.eng.awaiting) && y.eng.mode == e.mode && y.eng.depth == e.depth
            && y.eng.rotating == e.rotating && y.eng.last == e.last && y.eng.seg == e.seg
            && (WorksWellFormed(e.pending) ==> WorksWellFormed(y.eng.pending))
  {
    hide WellFormed, Sent, SentAll, Due;
    var v := Complete(w, res);
    if v.Finished? && v.batch.Some? {
      var left := Remaining(e.mode, v.batch.value.items, AckPoint.Written);
      assert ItemsWellFormed(left) by {
        forall i | 0 <= i < |left| ensures WellFormed(left[i].data) { assert WellFormed(v.batch.value.items[i].data); }
      }
    }
  }

  ghost predicate WorksWellFormed(ws: seq<Work>) {
    forall i :: 0 <= i < |ws| ==> WorkWellFormed(ws[i])
  }

  // ---- The slab ----

  ghost predicate KeysDistinct(ring: seq<Sqe>) {
    forall i, j :: 0 <= i < j < |ring| ==> ring[i].key != ring[j].key
  }

  /** The slab holds exactly the work of the entries the ring still owes a completion for. */
  ghost predicate SlabMatches(slab: map<nat, Work>, ring: seq<Sqe>) {
    && KeysDistinct(ring)
    && |slab| == |ring|
    && forall i :: 0 <= i < |ring| ==> ring[i].key in slab && slab[ring[i].key] == ring[i].work
  }

  lemma VacantKey(slab: map<nat, Work>)
    ensures exists k: nat :: k !in slab
  {
    if slab.Keys == {} {
      assert 0 !in slab;
    } else {
      MaxExists(slab.Keys);
      var m :| m in slab.Keys && forall x :: x in slab.Keys ==> x <= m;
      assert m + 1 !in slab;
    }
  }

  lemma SlabInsert(slab: map<nat, Work>, ring: seq<Sqe>, e: Sqe)
    requires SlabMatches(slab, ring) && e.key !in slab
    ensures SlabMatches(slab[e.key := e.work], ring + [e])
  {
    assert slab[e.key := e.work].Keys == slab.Keys + {e.key};
    assert |slab[e.key := e.work].Keys| == |slab.Keys| + 1;
  }

  lemma SlabRemove(slab: map<nat, Work>, ring: seq<Sqe>, i: nat)
    requires SlabMatches(slab, ring) && i < |ring|
    ensures SlabMatches(slab - {ring[i].key}, Without(ring, i))
  {
    var key, rest := ring[i].key, Without(ring, i);
    assert slab.Keys == (slab - {key}).Keys + {key};
    assert |slab.Keys| == |(slab - {key}).Keys| + 1;
    forall j | 0 <= j < |rest| ensures rest[j].key in slab - {key} && slab[rest[j].key] == rest[j].work {
      var o := if j < i then j else j + 1;
      assert rest[j] == ring[o];
      assert if o < i then ring[o].key != key else ring[i].key != ring[o].key;
    }
    forall j, k | 0 <= j < k < |rest| ensures rest[j].key != rest[k].key {
      assert rest[j] == ring[if j < i then j else j + 1] && rest[k] == ring[if k < i then k else k + 1];
    }
  }

  // ---- Retirement ----

  /** The loop of `retire` over a listing. */
  function Keep(listing: seq<nat>, boundary: nat): seq<nat> {
    if listing == [] then [] else
    var n := |listing| - 1;
    Keep(listing[..n], boundary) + if listing[n] < boundary then [listing[n]] else []
  }

  lemma {:induction false} KeepSorted(listing: seq<nat>, boundary: nat)
    requires Ascending(listing)
    ensures var k := Keep(listing, boundary);
            Ascending(k) && forall x :: x in k <==> x in listing && x < boundary
  {
    if listing != [] {
      var n := |listing| - 1;
      KeepSorted(listing[..n], boundary);
      assert listing == listing[..n] + [listing[n]];
      var k := Keep(listing[..n], boundary);
      forall i | 0 <= i < |k| ensures k[i] < listing[n] {
        assert k[i] in listing[..n];
      }
    }
  }

  /** What `retire` queues is exactly the names below the boundary, oldest first. */
  lemma KeepIsBelow(names: set<nat>, boundary: nat)
    ensures Keep(Sorted(names), boundary) == Below(names, boundary)
  {
    KeepSorted(Sorted(names), boundary);
    AscendingUnique(Keep(Sorted(names), boundary), Below(names, boundary));
  }

  // ---- Completions and the entries they answer ----

  predicate HasKey(ring: seq<Sqe>, key: nat) { exists i :: 0 <= i < |ring| && ring[i].key == key }

  function EntryOf(ring: seq<Sqe>, key: nat): (e: Sqe)
    requires HasKey(ring, key)
    ensures e in ring && e.key == key
  {
    if ring[|ring| - 1].key == key then ring[|ring| - 1] else EntryOf(ring[..|ring| - 1], key)
  }

  /** The ring posts at most one completion for each entry it was given. */
  ghost predicate Posted(ring: seq<Sqe>, dones: seq<Done>) {
    && (forall i :: 0 <= i < |dones| ==> HasKey(ring, dones[i].key))
    && (forall i, j :: 0 <= i < j < |dones| ==> dones[i].key != dones[j].key)
  }

  /** The completions, each with the work it was submitted for. */
  function Cqes(ring: seq<Sqe>, dones: seq<Done>): (cs: seq<Cqe>)
    requires forall i :: 0 <= i < |dones| ==> HasKey(ring, dones[i].key)
    ensures |cs| == |dones|
    ensures forall i :: 0 <= i < |cs| ==> cs[i] == Cqe(EntryOf(ring, dones[i].key).work, dones[i].res)
  {
    seq(|dones|, i requires 0 <= i < |dones| => Cqe(EntryOf(ring, dones[i].key).work, dones[i].res))
  }

  ghost predicate Reaped(dones: seq<Done>, n: nat, key: nat)
    requires n <= |dones|
  {
    exists j :: 0 <= j < n && dones[j].key == key
  }

  /** What is left of the ring once the first `n` completions are reaped. */
  ghost predicate Left(ring: seq<Sqe>, was: seq<Sqe>, dones: seq<Done>, n: nat)
    requires n <= |dones|
  {
    forall e :: e in ring <==> e in was && !Reaped(dones, n, e.key)
  }

  lemma {:induction false} FindEntry(ring: seq<Sqe>, e: Sqe) returns (i: nat)
    requires e in ring
    ensures i < |ring| && ring[i] == e
  {
    i :| 0 <= i < |ring| && ring[i] == e;
  }

  lemma LeftNext(ring: seq<Sqe>, was: seq<Sqe>, dones: seq<Done>, n: nat, i: nat)
    requires n < |dones| && KeysDistinct(was) && KeysDistinct(ring) && Left(ring, was, dones, n)
    requires i < |ring| && ring[i].key == dones[n].key
    ensures Left(Without(ring, i), was, dones, n + 1)
  {
    var rest := Without(ring, i);
    forall e ensures e in rest <==> e in was && !Reaped(dones, n + 1, e.key) {
      assert e in rest <==> e in ring && e.key != ring[i].key by { WithoutMembers(ring, i, e); }
      assert Reaped(dones, n + 1, e.key) <==> Reaped(dones, n, e.key) || e.key == dones[n].key;
    }
  }

  lemma WithoutMembers(ring: seq<Sqe>, i: nat, e: Sqe)
    requires i < |ring| && KeysDistinct(ring)
    ensures e in Without(ring, i) <==> e in ring && e.key != ring[i].key
  {
    var rest := Without(ring, i);
    assert forall j :: 0 <= j < |rest| ==> rest[j] == ring[if j < i then j else j + 1];
    if e in rest {
      var j :| 0 <= j < |rest| && rest[j] == e;
      var o := if j < i then j else j + 1;
      assert ring[o] == e;
      assert if o < i then ring[o].key != ring[i].key else ring[i].key != ring[o].key;
    }
    if e in ring && e.key != ring[i].key {
      var o :| 0 <= o < |ring| && ring[o] == e;
      assert rest[if o < i then o else o - 1] == e;
    }
  }

  /** The slab finds the work of the next completion. */
  lemma SlabFinds(slab: map<nat, Work>, ring: seq<Sqe>, was: seq<Sqe>, dones: seq<Done>, n: nat) returns (i: nat)
    requires SlabMatches(slab, ring) && n < |dones| && Left(ring, was, dones, n) && Posted(was, dones)
    ensures i < |ring| && ring[i].key == dones[n].key
    ensures dones[n].key in slab && slab[dones[n].key] == Cqes(was, dones)[n].work
  {
    var e := EntryOf(was, dones[n].key);
    assert !Reaped(dones, n, e.key);
    i := FindEntry(ring, e);
  }

  lemma SlabKeys(slab: map<nat, Work>, ring: seq<Sqe>)
    requires SlabMatches(slab, ring)
    ensures KeysDistinct(ring)
  {
  }

  lemma PostedKeys(ring: seq<Sqe>, dones: seq<Done>)
    requires Posted(ring, dones)
    ensures forall i :: 0 <= i < |dones| ==> HasKey(ring, dones[i].key)
  {
  }

  lemma LeftNone(ring: seq<Sqe>, dones: seq<Done>)
    ensures Left(ring, ring, dones, 0)
  {
  }

  ghost predicate RingWellFormed(ring: seq<Sqe>) {
    forall i :: 0 <= i < |ring| ==> WorkWellFormed(ring[i].work)
  }

  /** Reaping one completion: its entry leaves the ring, its work the slab. */
  lemma RingNext(slab: map<nat, Work>, ring: seq<Sqe>, was: seq<Sqe>, dones: seq<Done>, n: nat, i: nat)
    requires SlabMatches(slab, ring) && RingWellFormed(ring) && KeysDistinct(was) && n < |dones|
    requires Left(ring, was, dones, n)
    requires i < |ring| && ring[i].key == dones[n].key
    ensures SlabMatches(slab - {dones[n].key}, Without(ring, i)) && RingWellFormed(Without(ring, i))
    ensures Left(Without(ring, i), was, dones, n + 1)
    ensures dones[n].key in slab && WorkWellFormed(slab[dones[n].key])
  {
    hide WorkWellFormed, Left;
    SlabRemove(slab, ring, i);
    LeftNext(ring, was, dones, n, i);
  }

  // ---- The engine ----

  class WalEngine {
    const mode: Mode
    const depth: nat
    var pending: seq<Work>
    var inflight: map<nat, Work>
    var lastIngestedLsn: nat
    var seg: OpenSegment
    const planner: Planner
    var awaiting: seq<Batch>
    /** Entries handed to the ring and not yet reaped, in submission order. */
    ghost var ring: seq<Sqe>
    /** Everything sent to clients, and every buffer returned to the pool. */
    var replies: seq<Reply>
    var recycled: seq<Batch>

    function View(): Engine
      reads this, seg, planner
    {
      Engine(mode, depth, pending, lastIngestedLsn, seg.View(), planner.View(), awaiting, None)
    }

    ghost predicate Valid()
      reads this
    {
      && BatchesWellFormed(awaiting) && WorksWellFormed(pending)
      && SlabMatches(inflight, ring) && RingWellFormed(ring)
    }

    constructor (ringDepth: nat, mode: Mode, startLsn: nat, ino: nat, fileLen: nat)
      ensures Valid() && fresh(seg) && fresh(planner) && ring == [] && replies == [] && recycled == []
      ensures View() == Engine(mode, ringDepth, [], startLsn, Segment(startLsn, ino, fileLen),
                               Plan(CadenceOf(mode), 0, false), [], None)
    {
      this.mode, depth := mode, ringDepth;
      pending, inflight, awaiting, ring, replies, recycled := [], map[], [], [], [], [];
      lastIngestedLsn := startLsn;
      seg := new OpenSegment(startLsn, ino, fileLen);
      planner := new Planner(mode);
    }

    predicate ShouldPark()
      reads this
    {
      pending == [] && inflight == map[]
    }

    predicate RingIsFull()
      reads this
    {
      |inflight| >= depth
    }

    /** The gap assertion is the caller's obligation; `LsnAgreement` shows that stage 2 meets it. */
    method HandleBatch(batch: Batch)
      requires Valid() && ItemsWellFormed(batch.items) && batch.lo == lastIngestedLsn
      modifies this`pending, this`lastIngestedLsn, seg, planner
      ensures Valid() && View() == Ingest(old(View()), batch)
    {
      hide WellFormed, Redo;
      var out, _ := EncodeBatch(batch);
      lastIngestedLsn := batch.hi;
      var offset, _ := seg.AdvanceOffset(|out|);
      planner.OnWriteQueued(|out|);
      pending := pending + [Write(batch.(out := out), offset, 0)];
    }

    method ArmFsync()
      requires Valid()
      modifies this`pending, planner
      ensures Valid() && View() == Arm(old(View()))
    {
      var due := planner.Poll();
      if due {
        pending := pending + [Fsync(lastIngestedLsn)];
      }
    }

    /**
     Moves work from the front of `pending` into the ring, `n` pieces of it: as many as the submission
     queue's room and the ring's depth allow. Each gets an unused slab index and the current descriptor.
     */
    method HandlePending(room: nat) returns (added: bool, ghost n: nat)
      requires Valid()
      modifies this`pending, this`inflight, this`ring
      ensures Valid() && added == (n > 0) && n <= |old(pending)| && n <= room
      ensures View() == old(View()).(pending := old(pending)[n..])
      ensures |ring| == |old(ring)| + n && ring[..|old(ring)|] == old(ring)
      ensures forall i :: |old(ring)| <= i < |ring| ==>
                ring[i].work == old(pending)[i - |old(ring)|] && ring[i].fd == seg.ino
      ensures pending == [] || n == room || RingIsFull()
    {
      hide SlabMatches, WorkWellFormed;
      if pending == [] {
        return false, 0;
      }
      var moved: nat := 0;
      while moved < room && |inflight| < depth && pending != []
        invariant moved <= |old(pending)| && moved <= room && Valid()
        invariant pending == old(pending)[moved..]
        invariant |ring| == |old(ring)| + moved && ring[..|old(ring)|] == old(ring)
        invariant forall i :: |old(ring)| <= i < |ring| ==>
          ring[i].work == old(pending)[i - |old(ring)|] && ring[i].fd == seg.ino
        decreases |pending|
      {
        var work := pending[0];
        VacantKey(inflight);
        var key: nat :| key !in inflight;
        SlabInsert(inflight, ring, Sqe(key, seg.ino, work));
        pending := pending[1..];
        ring := ring + [Sqe(key, seg.ino, work)];
        inflight := inflight[key := work];
        moved := moved + 1;
      }
      return moved > 0, moved;
    }

    /** An fsync has completed: everyone waiting for one is answered and their buffers go back to the pool. */
    method SettleWaiters()
      requires Valid()
      modifies this`awaiting, this`replies, this`recycled
      ensures Valid() && awaiting == []
      ensures replies == old(replies) + SentAll(mode, old(awaiting), Durable)
      ensures recycled == old(recycled) + Freed(old(awaiting))
    {
      hide WellFormed, Remaining, Sent, SlabMatches;
      var waiters := awaiting;
      awaiting := [];
      for i := 0 to |waiters|
        invariant awaiting == [] && Valid()
        invariant replies == old(replies) + SentAll(mode, waiters[..i], Durable)
        invariant recycled == old(recycled) + Freed(waiters[..i])
      {
        assert ItemsWellFormed(waiters[i].items);
        var b, sent := Advance(mode, waiters[i], Durable);
        replies := replies + sent;
        recycled := recycled + [b.Recycle()];
        assert waiters[..i + 1][..i] == waiters[..i];
      }
      assert waiters[..|waiters|] == waiters;
    }

    /** A fully written batch: answered, then returned or kept until an fsync. */
    method BatchWritten(batch: Batch)
      requires Valid() && ItemsWellFormed(batch.items)
      modifies this`awaiting, this`replies, this`recycled
      ensures var y := OnWritten(old(View()), batch);
              View() == y.eng && replies == old(replies) + y.sent && recycled == old(recycled) + y.freed
    {
      hide WellFormed, Remaining, Sent, SlabMatches;
      var b, sent := Advance(mode, batch, AckPoint.Written);
      replies := replies + sent;
      if IsSettled(b.items) {
        recycled := recycled + [b.Recycle()];
      } else {
        awaiting := awaiting + [b];
      }
    }

    /** The reaction to one completion short of a fatal error. */
    method ReapOne(work: Work, res: int)
      requires Valid() && WorkWellFormed(work) && !Broken(work, res)
      modifies this`pending, this`awaiting, this`replies, this`recycled, planner
      ensures Valid()
      ensures var y := Reap(old(View()), work, res);
              View() == y.eng && replies == old(replies) + y.sent && recycled == old(recycled) + y.freed
    {
      hide WellFormed, SentAll, Sent, Remaining, SlabMatches, OnWritten;
      ReapKeepsWellFormed(View(), work, res);
      match Complete(work, res) {
        case Finished(None) =>
        case Finished(Some(batch)) =>
          BatchWritten(batch);
        case Retry(w) =>
          if w.Write? {
            planner.OnWriteQueued(if w.done <= |w.batch.out| then |w.batch.out| - w.done else 0);
          }
          pending := [w] + pending;
        case Flushed =>
          SettleWaiters();
          planner.OnFsyncCompleted();
      }
    }

    /**
     Reaps a run of completions, in the order the ring posted them. It panics exactly if one reports an
     error that is not to be retried. The slab gives each completion the very work it was submitted for.
     */
    method ReapCqes(dones: seq<Done>) returns (panicked: bool)
      requires Valid() && Posted(ring, dones)
      modifies this`pending, this`inflight, this`awaiting, this`ring, this`replies, this`recycled, planner
      ensures panicked <==> !NoneBroken(Cqes(old(ring), dones))
      ensures !panicked ==>
        && Valid() && Left(ring, old(ring), dones, |dones|)
        && var y := ReapAll(old(View()), Cqes(old(ring), dones));
           View() == y.eng && replies == old(replies) + y.sent && recycled == old(recycled) + y.freed
    {
      hide WellFormed, Reap, ReapAll, SlabMatches, Left, KeysDistinct, HasKey, EntryOf, Complete, WorkWellFormed,
           BatchesWellFormed, WorksWellFormed, RingWellFormed, NoneBroken, Posted, Broken;
      assert forall i :: 0 <= i < |dones| ==> HasKey(ring, dones[i].key) by { PostedKeys(ring, dones); }
      ghost var was := ring;
      ghost var cs := Cqes(was, dones);
      assert Left(ring, was, dones, 0) by { LeftNone(ring, dones); }
      assert KeysDistinct(was) by { SlabKeys(inflight, ring); }
      ReapNone(View(), cs);
      assert replies + [] == replies && recycled + [] == recycled;
      for n := 0 to |dones|
        invariant Valid() && Left(ring, was, dones, n) && NoneBroken(cs[..n])
        invariant var y := ReapAll(old(View()), cs[..n]);
                  View() == y.eng && replies == old(replies) + y.sent && recycled == old(recycled) + y.freed
      {
        ghost var i := SlabFinds(inflight, ring, was, dones, n);
        var work := inflight[dones[n].key];
        RingNext(inflight, ring, was, dones, n, i);
        inflight := inflight - {dones[n].key};
        ring := Without(ring, i);
        assert cs[n] == Cqe(work, dones[n].res);
        CompleteExactly(work, dones[n].res);
        if Complete(work, dones[n].res) == Fatal {
          BrokenFound(cs, n);
          return true;
        }
        ghost var y := ReapAll(old(View()), cs[..n]);
        ReapNext(old(View()), cs, n);
        ReapOne(work, dones[n].res);
        Assoc(old(replies), y.sent, Reap(y.eng, work, dones[n].res).sent);
        Assoc(old(recycled), y.freed, Reap(y.eng, work, dones[n].res).freed);
      }
      assert cs[..|dones|] == cs;
      panicked := false;
    }

    /**
     The end of `rotate`, once its loop has emptied `pending` and the ring: the sealed segment's waiters
     are served and the next segment is opened at its end.
     */
    method FinishRotate(boundary: nat, ino: nat, fileLen: nat)
      requires Valid() && ShouldPark()
      modifies this`seg, this`awaiting, this`replies, this`recycled, planner
      ensures Valid() && fresh(seg) && ring == []
      ensures var y := Reopen(old(View()), Segment(boundary, ino, fileLen));
              View() == y.eng && replies == old(replies) + y.sent && recycled == old(recycled) + y.freed
    {
      hide WellFormed, SentAll;
      planner.OnFsyncCompleted();
      SettleWaiters();
      seg := new OpenSegment(boundary, ino, fileLen);
    }

    /** Queues the unlinks of all segments below the boundary, in listing order; panics above the active one. */
    method Retire(boundary: nat, names: set<nat>, listing: seq<nat>) returns (panicked: bool)
      requires Valid() && listing == Sorted(names)
      modifies this`pending
      ensures panicked == (seg.start < boundary)
      ensures panicked ==> pending == old(pending)
      ensures !panicked ==>
        Valid() && View() == old(View()).(pending := old(pending) + Removals(Below(names, boundary)))
    {
      hide Sorted, SlabMatches, WellFormed;
      if seg.start < boundary {
        return true;
      }
      for i := 0 to |listing|
        invariant Valid() && pending == old(pending) + Removals(Keep(listing[..i], boundary))
      {
        assert listing[..i + 1][..i] == listing[..i];
        if listing[i] < boundary {
          pending := pending + [Remove(listing[i])];
        }
      }
      assert listing[..|listing|] == listing;
      KeepIsBelow(names, boundary);
      panicked := false;
    }
  }

  /** The encoding loop: a record for each PUT, numbered upwards from the low watermark. */
  method EncodeBatch(batch: Batch) returns (out: bytes, lsn: nat)
    requires ItemsWellFormed(batch.items)
    ensures batch.(out := out) == Encoded(batch)
    ensures lsn == batch.lo + |RecsOf(batch.lo, Bodies(batch.items))|
  {
    hide WellFormed, RecsOf, EncodeLog, Encode, OpOf;
    ghost var bodies := Bodies(batch.items);
    lsn, out := batch.lo, batch.out;
    NoRecords(batch.lo, bodies);
    for i := 0 to |batch.items|
      invariant lsn == batch.lo + |RecsOf(batch.lo, bodies[..i])|
      invariant out == batch.out + EncodeLog(RecsOf(batch.lo, bodies[..i]))
    {
      OneMoreRecord(batch.lo, bodies, i);
      if OpOf(batch.items[i].data) == Put {
        lsn := lsn + 1;
        out := EncodeRecord(out, lsn, batch.items[i].data);
        Assoc(batch.out, EncodeLog(RecsOf(batch.lo, bodies[..i])), Encode(Rec(lsn, batch.items[i].data)));
      }
    }
    assert bodies[..|batch.items|] == bodies;
  }

  lemma NoRecords(lsn: nat, bodies: seq<bytes>)
    requires AllWellFormed(bodies)
    ensures RecsOf(lsn, bodies[..0]) == [] && EncodeLog(RecsOf(lsn, bodies[..0])) == []
  {
  }

  lemma OneMoreRecord(lsn: nat, bodies: seq<bytes>, i: nat)
    requires AllWellFormed(bodies) && i < |bodies|
    ensures |bodies[i]| > 0
    ensures var before, after := RecsOf(lsn, bodies[..i]), RecsOf(lsn, bodies[..i + 1]);
            if OpOf(bodies[i]) == Put then
              var r := Rec(lsn + |before| + 1, bodies[i]);
              after == before + [r] && EncodeLog(after) == EncodeLog(before) + Encode(r)
            else after == before
  {
    hide Encode;
    assert WellFormed(bodies[i]);
    assert bodies[..i + 1][..i] == bodies[..i];
    if OpOf(bodies[i]) == Put {
      var before := RecsOf(lsn, bodies[..i]);
      var r := Rec(lsn + |before| + 1, bodies[i]);
      EncodeLogAppend(before, [r]);
      assert EncodeLog([r][1..]) == [];
      assert Encode(r) + [] == Encode(r);
    }
  }
}
