/**
 Requests, batches and durability levels (crates/server/src/types.rs, crates/server/src/acker.rs).
 Batches are moved between threads and never shared, so they are values. Two fields are bookkeeping
 the source does not have: `Batch.buf` names the circulating buffer, and `Batch.no` / `Request.id`
 number the batches sent to the WAL and the requests taken by stage 2.
 */
module Types {
  import opened Bytes
  import opened Wire

  datatype Mode = NoFsync | Sync | Async

  datatype AckPoint = Applied | Written | Durable

  datatype Request = Request(id: nat, conn: nat, data: bytes, resp: Option<Resp>)

  datatype Batch = Batch(buf: nat, no: nat, items: seq<Request>, out: bytes, lo: nat, hi: nat) {
    predicate HasWalWork() { hi > lo }

    function Recycle(): Batch { Batch(buf, 0, [], [], 0, 0) }

    predicate Cleared() { items == [] && out == [] && lo == 0 && hi == 0 }
  }

  datatype WalMsg = WriteMsg(batch: Batch) | RotateMsg(boundary: nat) | RetireMsg(boundary: nat)

  datatype Reply = Reply(id: nat, conn: nat, resp: Resp, reached: AckPoint)

  function Rank(a: AckPoint): nat {
    match a
    case Applied => 1
    case Written => 2
    case Durable => 3
  }

  function Level(mode: Mode): AckPoint {
    match mode
    case NoFsync => Applied
    case Async => Written
    case Sync => Durable
  }

  /** The level a request waits for: a GET for `Applied`, everything else for the mode's. */
  function Required(mode: Mode, body: bytes): AckPoint
    requires WellFormed(body)
  {
    if OpOf(body) == Get then Applied else Level(mode)
  }

  predicate Due(mode: Mode, body: bytes, reached: AckPoint)
    requires WellFormed(body)
  {
    Rank(Required(mode, body)) <= Rank(reached)
  }

  ghost predicate AllWellFormed(bodies: seq<bytes>) {
    forall i :: 0 <= i < |bodies| ==> WellFormed(bodies[i])
  }

  ghost predicate ItemsWellFormed(items: seq<Request>) {
    forall i :: 0 <= i < |items| ==> WellFormed(items[i].data)
  }

  function Bodies(items: seq<Request>): (b: seq<bytes>)
    ensures |b| == |items| && forall i :: 0 <= i < |b| ==> b[i] == items[i].data
  {
    seq(|items|, i requires 0 <= i < |items| => items[i].data)
  }
}
