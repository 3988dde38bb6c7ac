/**
 Response and request framing: the server's encoder and request loop (crates/server/src/stage1/mod.rs),
 and the client's incremental parser (crates/smart_client/src/reader.rs).
 */
module Framing {
  import opened Bytes
  import opened Wire

  function Frame(body: bytes): bytes { LE(|body|, 4) + body }

  /** The first complete frame's body, if there is one. */
  function NextFrame(b: bytes): (f: Option<bytes>)
    ensures f.Some? ==> 4 + |f.value| <= |b|
  {
    if |b| < 4 then None else
    var n := UnLE(b[..4]);
    if |b| < 4 + n then None else Some(b[4..4 + n])
  }

  function Rest(b: bytes): bytes
    requires NextFrame(b).Some?
  {
    b[4 + |NextFrame(b).value|..]
  }

  /** All complete frames, and what is left after them. */
  function Frames(b: bytes): seq<bytes>
    decreases |b|
  {
    if NextFrame(b).None? then [] else [NextFrame(b).value] + Frames(Rest(b))
  }

  function Leftover(b: bytes): bytes
    decreases |b|
  {
    if NextFrame(b).None? then b else Leftover(Rest(b))
  }

  /** More input never changes a frame that is already complete. */
  lemma NextFrameStable(a: bytes, b: bytes)
    requires NextFrame(a).Some?
    ensures NextFrame(a + b) == NextFrame(a) && Rest(a + b) == Rest(a) + b
  {
    assert (a + b)[..4] == a[..4];
    var n := UnLE(a[..4]);
    assert (a + b)[4..4 + n] == a[4..4 + n];
    assert (a + b)[4 + n..] == a[4 + n..] + b;
  }

  /** Parsing what has arrived, then the rest, is parsing it all at once. */
  lemma {:induction false} FramesAppend(a: bytes, b: bytes)
    ensures Frames(a + b) == Frames(a) + Frames(Leftover(a) + b)
    ensures Leftover(a + b) == Leftover(Leftover(a) + b)
    decreases |a|
  {
    hide NextFrame;
    if NextFrame(a).Some? {
      NextFrameStable(a, b);
      FramesAppend(Rest(a), b);
      Assoc([NextFrame(a).value], Frames(Rest(a)), Frames(Leftover(a) + b));
    }
  }

  lemma FrameParses(body: bytes, tail: bytes)
    requires |body| < U32
    ensures NextFrame(Frame(body) + tail) == Some(body) && Rest(Frame(body) + tail) == tail
  {
    var b := Frame(body) + tail;
    assert b[..4] == LE(|body|, 4);
    ReadBack32(|body|);
    assert b[4..4 + |body|] == body;
    assert b[4 + |body|..] == tail;
  }

  function FrameAll(bodies: seq<bytes>): bytes {
    if bodies == [] then [] else Frame(bodies[0]) + FrameAll(bodies[1..])
  }

  lemma {:induction false} FramesOfAll(bodies: seq<bytes>, tail: bytes)
    requires forall i :: 0 <= i < |bodies| ==> |bodies[i]| < U32
    ensures Frames(FrameAll(bodies) + tail) == bodies + Frames(tail)
    ensures Leftover(FrameAll(bodies) + tail) == Leftover(tail)
  {
    hide NextFrame, Frame, Rest;
    if bodies == [] {
      assert FrameAll(bodies) + tail == tail;
    } else {
      var rest := FrameAll(bodies[1..]) + tail;
      Assoc(Frame(bodies[0]), FrameAll(bodies[1..]), tail);
      FrameParses(bodies[0], rest);
      FramesOfAll(bodies[1..], tail);
      assert [bodies[0]] + bodies[1..] == bodies;
      Assoc([bodies[0]], bodies[1..], Frames(tail));
    }
  }

  // ---- Responses ----

  /** What the server sends; it never sends `Unrecognised`, and a value's length fits the prefix. */
  predicate Encodable(r: Resp) {
    r != Unrecognised && (r.Value? ==> 1 + |r.data| < U32)
  }

  function RespBody(r: Resp): bytes { [ToProtoCode(r)] + if r.Value? then r.data else [] }

  method EncodeResp(buf: bytes, r: Resp) returns (buf': bytes)
    requires r != Unrecognised
    ensures buf' == buf + Frame(RespBody(r))
  {
    if r.Value? {
      buf' := buf + LE(1 + |r.data|, 4);
      buf' := buf' + [ToProtoCode(r)];
      buf' := buf' + r.data;
    } else {
      buf' := buf + LE(1, 4);
      buf' := buf' + [ToProtoCode(r)];
    }
  }

  function RespBodies(rs: seq<Resp>): (b: seq<bytes>)
    ensures |b| == |rs| && forall i :: 0 <= i < |b| ==> b[i] == RespBody(rs[i])
  {
    seq(|rs|, i requires 0 <= i < |rs| => RespBody(rs[i]))
  }

  function Decoded(bodies: seq<bytes>): (rs: seq<Resp>)
    ensures |rs| == |bodies| && forall i :: 0 <= i < |rs| ==> rs[i] == FromProtoCode(bodies[i])
  {
    seq(|bodies|, i requires 0 <= i < |bodies| => FromProtoCode(bodies[i]))
  }

  /** The bytes of a list of responses, as the writer task sends them. */
  function ResponseStream(rs: seq<Resp>): bytes { FrameAll(RespBodies(rs)) }

  /** The frame of each response, byte by byte. */
  lemma ResponseFrames(data: bytes)
    ensures Frame(RespBody(Ok)) == [1, 0, 0, 0, 1]
    ensures Frame(RespBody(Miss)) == [1, 0, 0, 0, 2]
    ensures Frame(RespBody(UnknownOp)) == [1, 0, 0, 0, 3]
    ensures Frame(RespBody(Value(data))) == LE(1 + |data|, 4) + [0] + data
    ensures Frame(RespBody(Value([104, 105]))) == [3, 0, 0, 0, 0, 104, 105]
  {
    hide LE, Frame, RespBody;
    SmallLE(3);
    PlainFrame(Ok);
    PlainFrame(Miss);
    PlainFrame(UnknownOp);
    ValueFrame(data);
    ValueFrame([104, 105]);
  }

  lemma ValueFrame(data: bytes)
    ensures Frame(RespBody(Value(data))) == LE(1 + |data|, 4) + [0] + data
  {
    hide LE;
    Assoc(LE(1 + |data|, 4), [0], data);
  }

  lemma PlainFrame(r: Resp)
    requires !r.Value?
    ensures Frame(RespBody(r)) == [1, 0, 0, 0, ToProtoCode(r)]
  {
    hide LE;
    SmallLE(1);
    assert RespBody(r) == [ToProtoCode(r)];
  }

  lemma RespRoundTrip(r: Resp)
    requires r != Unrecognised
    ensures FromProtoCode(RespBody(r)) == r
  {
    if r.Value? { assert RespBody(r)[1..] == r.data; }
  }

  // ---- The client's reader ----

  class FrameReader {
    var buf: bytes

    constructor ()
      ensures buf == []
    {
      buf := [];
    }

    method Feed(data: bytes)
      modifies this
      ensures buf == old(buf) + data
    {
      buf := buf + data;
    }

    method TryExtract() returns (r: Option<Resp>)
      modifies this
      ensures r.None? ==> NextFrame(old(buf)).None? && buf == old(buf)
      ensures r.Some? ==>
        NextFrame(old(buf)).Some? && r.value == FromProtoCode(NextFrame(old(buf)).value) && buf == Rest(old(buf))
    {
      if |buf| < 4 {
        return None;
      }
      var bodyLen := UnLE(buf[..4]);
      var total := 4 + bodyLen;
      if |buf| < total {
        return None;
      }
      var resp := FromProtoCode(buf[4..total]);
      buf := buf[total..];
      return Some(resp);
    }

    /** The caller's loop after a read: pull frames until none is complete. */
    method ExtractAll() returns (rs: seq<Resp>)
      modifies this
      ensures rs == Decoded(Frames(old(buf))) && buf == Leftover(old(buf))
    {
      hide NextFrame, Rest, Frames, Leftover, Decoded;
      rs := [];
      var more := true;
      assert [] + Decoded(Frames(buf)) == Decoded(Frames(buf));
      while more
        invariant Decoded(Frames(old(buf))) == rs + Decoded(Frames(buf)) && Leftover(old(buf)) == Leftover(buf)
        invariant !more ==> NextFrame(buf).None?
        decreases |buf|, more
      {
        ghost var was := buf;
        var r := TryExtract();
        if r.None? {
          more := false;
        } else {
          FirstFrame(was);
          Assoc(rs, [r.value], Decoded(Frames(buf)));
          rs := rs + [r.value];
        }
      }
      NoFrameLeft(buf);
      assert rs + [] == rs;
    }

    /** Any number of reads of any sizes. */
    method ReadChunks(chunks: seq<bytes>) returns (rs: seq<Resp>)
      modifies this
      ensures rs == Decoded(Frames(old(buf) + Concat(chunks))) && buf == Leftover(old(buf) + Concat(chunks))
    {
      hide NextFrame, Rest;
      rs := ExtractAll();
      ghost var all := old(buf);
      assert all == old(buf) + Concat(chunks[..0]) by { assert Concat([]) == []; }
      for i := 0 to |chunks|
        invariant all == old(buf) + Concat(chunks[..i])
        invariant rs == Decoded(Frames(all)) && buf == Leftover(all)
      {
        FramesAppend(all, chunks[i]);
        Feed(chunks[i]);
        var more := ExtractAll();
        rs := rs + more;
        all := all + chunks[i];
        ConcatNext(chunks, i);
        Assoc(old(buf), Concat(chunks[..i]), chunks[i]);
      }
      assert chunks[..|chunks|] == chunks;
    }
  }

  lemma FirstFrame(b: bytes)
    requires NextFrame(b).Some?
    ensures |Rest(b)| < |b| && Leftover(b) == Leftover(Rest(b))
    ensures Decoded(Frames(b)) == [FromProtoCode(NextFrame(b).value)] + Decoded(Frames(Rest(b)))
  {
    hide FromProtoCode;
  }

  lemma NoFrameLeft(b: bytes)
    requires NextFrame(b).None?
    ensures Leftover(b) == b && Decoded(Frames(b)) == []
  {
    hide FromProtoCode;
  }

  lemma ConcatNext(chunks: seq<bytes>, i: nat)
    requires i < |chunks|
    ensures Concat(chunks[..i + 1]) == Concat(chunks[..i]) + chunks[i]
  {
    assert chunks[..i + 1] == chunks[..i] + [chunks[i]];
    ConcatAppend(chunks[..i], [chunks[i]]);
    assert Concat([chunks[i]][1..]) == [];
    assert Concat([chunks[i]]) == chunks[i] + [];
  }

  /**
   Framing round trip: however the bytes of a list of responses are cut into chunks, the client reads
   exactly that list, and nothing is left over.
   */
  lemma ChunkedRoundTrip(rs: seq<Resp>, chunks: seq<bytes>)
    requires forall i :: 0 <= i < |rs| ==> Encodable(rs[i])
    requires Concat(chunks) == ResponseStream(rs)
    ensures Decoded(Frames([] + Concat(chunks))) == rs && Leftover([] + Concat(chunks)) == []
  {
    hide NextFrame, FrameAll, RespBody;
    var bodies := RespBodies(rs);
    assert forall i :: 0 <= i < |bodies| ==> |bodies[i]| < U32 by {
      forall i | 0 <= i < |bodies| ensures |bodies[i]| < U32 { BodyLength(rs[i]); }
    }
    FramesOfAll(bodies, []);
    assert FrameAll(bodies) + [] == [] + Concat(chunks);
    NoFrames();
    assert bodies + [] == bodies;
    forall i | 0 <= i < |rs| ensures FromProtoCode(bodies[i]) == rs[i] { RespRoundTrip(rs[i]); }
  }

  lemma BodyLength(r: Resp)
    requires Encodable(r)
    ensures |RespBody(r)| < U32
  {
  }

  lemma NoFrames()
    ensures Frames([]) == [] && Leftover([]) == []
  {
  }

  // ---- The server's request loop ----

  /** The requests a connection yields: it is dropped at the first empty or oversized frame. */
  function Requests(b: bytes): seq<bytes>
    decreases |b|
  {
    if |b| < 4 then [] else
    var n := UnLE(b[..4]);
    if n == 0 || n > MAX_BODY || |b| < 4 + n then [] else
    [b[4..4 + n]] + Requests(b[4 + n..])
  }

  /** The connection is dropped where nothing acceptable stands: a cut, empty or oversized frame. */
  predicate Unacceptable(b: bytes) {
    |b| < 4 || UnLE(b[..4]) == 0 || UnLE(b[..4]) > 8_388_608 || |b| < 4 + UnLE(b[..4])
  }

  /**
   Every body read has between 1 byte and 8 MiB, together with their frames they are the stream up to some
   point, and what stands there is not acceptable.
   */
  lemma {:induction false} RequestsExactly(b: bytes)
    ensures forall i :: 0 <= i < |Requests(b)| ==> 1 <= |Requests(b)[i]| <= 8_388_608
    ensures FrameAll(Requests(b)) <= b && Unacceptable(b[|FrameAll(Requests(b))|..])
    decreases |b|
  {
    hide Frame, UnLE;
    if !Unacceptable(b) {
      var n := UnLE(b[..4]);
      var body, rest := b[4..4 + n], b[4 + n..];
      RequestsExactly(rest);
      FirstFramed(b);
      var f := FrameAll(Requests(rest));
      assert Requests(b) == [body] + Requests(rest) && Requests(b)[1..] == Requests(rest);
      assert b[|Frame(body) + f|..] == rest[|f|..];
    }
  }

  lemma FirstFramed(b: bytes)
    requires !Unacceptable(b)
    ensures var n := UnLE(b[..4]); b == Frame(b[4..4 + n]) + b[4 + n..] && |Frame(b[4..4 + n])| == 4 + n
  {
    WriteBack(b[..4]);
  }

  method ReadRequests(stream: bytes) returns (bodies: seq<bytes>)
    ensures bodies == Requests(stream)
  {
    bodies := [];
    var b := stream;
    while true
      invariant Requests(stream) == bodies + Requests(b)
      decreases |b|
    {
      if |b| < 4 {
        break;
      }
      var len := UnLE(b[..4]);
      if len == 0 || len > MAX_BODY {
        break;
      }
      if |b| < 4 + len {
        break;
      }
      Assoc(bodies, [b[4..4 + len]], Requests(b[4 + len..]));
      bodies := bodies + [b[4..4 + len]];
      b := b[4 + len..];
    }
    assert bodies + [] == bodies;
  }

  /** The server reads back exactly the request bodies a client framed, whatever follows them. */
  lemma {:induction false} RequestsRoundTrip(bodies: seq<bytes>, tail: bytes)
    requires forall i :: 0 <= i < |bodies| ==> 0 < |bodies[i]| <= MAX_BODY
    ensures Requests(FrameAll(bodies) + tail) == bodies + Requests(tail)
  {
    hide Frame;
    if bodies == [] {
      assert FrameAll(bodies) + tail == tail;
    } else {
      var rest := FrameAll(bodies[1..]) + tail;
      Assoc(Frame(bodies[0]), FrameAll(bodies[1..]), tail);
      OneRequest(bodies[0], rest);
      RequestsRoundTrip(bodies[1..], tail);
      assert [bodies[0]] + bodies[1..] == bodies;
      Assoc([bodies[0]], bodies[1..], Requests(tail));
    }
  }

  lemma OneRequest(body: bytes, tail: bytes)
    requires 0 < |body| <= MAX_BODY
    ensures Requests(Frame(body) + tail) == [body] + Requests(tail)
  {
    FrameParses(body, tail);
    var b := Frame(body) + tail;
    assert UnLE(b[..4]) == |body| by { ReadBack32(|body|); assert b[..4] == LE(|body|, 4); }
  }
}
