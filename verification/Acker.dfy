/** `Acker` (crates/server/src/acker.rs): which responses a newly reached level releases. */
module Acker {
  import opened Bytes
  import opened Wire
  import opened Types

  predicate Released(mode: Mode, r: Request, reached: AckPoint)
    requires WellFormed(r.data)
  {
    Due(mode, r.data, reached) && r.resp.Some?
  }

  /** The requests left behind: every due response has been taken. */
  function Remaining(mode: Mode, items: seq<Request>, reached: AckPoint): (left: seq<Request>)
    requires ItemsWellFormed(items)
    ensures |left| == |items|
    ensures forall i :: 0 <= i < |items| ==>
              left[i] == if Due(mode, items[i].data, reached) then items[i].(resp := None) else items[i]
  {
    seq(|items|, i requires 0 <= i < |items| =>
      if Due(mode, items[i].data, reached) then items[i].(resp := None) else items[i])
  }

  /** The replies sent, in item order. */
  function Sent(mode: Mode, items: seq<Request>, reached: AckPoint): seq<Reply>
    requires ItemsWellFormed(items)
  {
    if items == [] then [] else
    var r := items[|items| - 1];
    Sent(mode, items[..|items| - 1], reached) +
    if Released(mode, r, reached) then [Reply(r.id, r.conn, r.resp.value, reached)] else []
  }

  method Advance(mode: Mode, batch: Batch, reached: AckPoint) returns (b: Batch, sent: seq<Reply>)
    requires ItemsWellFormed(batch.items)
    ensures b == batch.(items := Remaining(mode, batch.items, reached))
    ensures sent == Sent(mode, batch.items, reached)
  {
    hide Due, WellFormed;
    var items := batch.items;
    sent := [];
    for i := 0 to |items|
      invariant |items| == |batch.items|
      invariant forall k :: i <= k < |items| ==> items[k] == batch.items[k]
      invariant forall k :: 0 <= k < i ==> items[k] == Remaining(mode, batch.items, reached)[k]
      invariant sent == Sent(mode, batch.items[..i], reached)
    {
      assert batch.items[..i + 1][..i] == batch.items[..i];
      var r := items[i];
      if Due(mode, r.data, reached) {
        if r.resp.Some? {
          items := items[i := r.(resp := None)];
          sent := sent + [Reply(r.id, r.conn, r.resp.value, reached)];
        }
      }
    }
    assert batch.items[..|items|] == batch.items;
    b := batch.(items := items);
  }

  predicate IsSettled(items: seq<Request>) {
    forall i :: 0 <= i < |items| ==> items[i].resp.None?
  }

  // ---- How often, and with what, a request is answered ----

  function Count(rs: seq<Reply>, id: nat): nat {
    if rs == [] then 0 else
    Count(rs[..|rs| - 1], id) + if rs[|rs| - 1].id == id then 1 else 0
  }

  lemma {:induction false} CountAppend(a: seq<Reply>, b: seq<Reply>, id: nat)
    ensures Count(a + b, id) == Count(a, id) + Count(b, id)
  {
    if b == [] {
      assert a + b == a;
    } else {
      CountAppend(a, b[..|b| - 1], id);
      assert (a + b)[..|a + b| - 1] == a + b[..|b| - 1];
    }
  }

  ghost predicate Numbered(items: seq<Request>, first: nat) {
    forall i :: 0 <= i < |items| ==> items[i].id == first + i
  }

  /** Advancing answers each released request of the batch once, and no other request. */
  lemma {:induction false} SentCount(mode: Mode, items: seq<Request>, reached: AckPoint, first: nat, id: nat)
    requires ItemsWellFormed(items) && Numbered(items, first)
    ensures Count(Sent(mode, items, reached), id) ==
            if first <= id < first + |items| && Released(mode, items[id - first], reached) then 1 else 0
  {
    hide Due, WellFormed;
    if items == [] {
    } else {
      var n := |items| - 1;
      var r := items[n];
      SentCount(mode, items[..n], reached, first, id);
      var tail := if Released(mode, r, reached) then [Reply(r.id, r.conn, r.resp.value, reached)] else [];
      CountAppend(Sent(mode, items[..n], reached), tail, id);
      if Released(mode, r, reached) {
        assert Count(tail, id) == if r.id == id then 1 else 0 by { assert tail[..0] == []; }
      }
    }
  }

  /** Every reply sent carries the response, connection and number of a request of the batch that was due. */
  lemma {:induction false} SentOrigin(mode: Mode, items: seq<Request>, reached: AckPoint, k: nat)
    requires ItemsWellFormed(items) && k < |Sent(mode, items, reached)|
    ensures exists i :: 0 <= i < |items| && Released(mode, items[i], reached) &&
              Sent(mode, items, reached)[k] == Reply(items[i].id, items[i].conn, items[i].resp.value, reached)
  {
    hide Due, WellFormed;
    var n := |items| - 1;
    if k < |Sent(mode, items[..n], reached)| {
      SentOrigin(mode, items[..n], reached, k);
    }
  }
}
