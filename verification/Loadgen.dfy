/**
 The load generator's response reader (crates/server/benches/loadgen.rs): one array used as a sliding
 window, compacted and doubled in place. It consumes the same frames as the plain parser of `Framing`.
 */
module Loadgen {
  import opened Bytes
  import opened Wire
  import opened Framing

  /** A connection: the bytes still to arrive before it closes, and how many each read would return. */
  class Socket {
    var data: bytes
    var sizes: seq<nat>

    constructor (data: bytes, sizes: seq<nat>)
      ensures this.data == data && this.sizes == sizes
    {
      this.data, this.sizes := data, sizes;
    }

    /** At most `room` bytes, at least one unless there is no room or the peer has closed. */
    method Recv(room: nat) returns (chunk: bytes)
      modifies this
      ensures old(data) == chunk + data && |chunk| <= room
      ensures chunk == [] <==> old(data) == [] || room == 0
    {
      var n := room;
      if sizes != [] {
        n := if sizes[0] == 0 then 1 else sizes[0];
        sizes := sizes[1..];
      }
      if n > room { n := room; }
      if n > |data| { n := |data|; }
      chunk := data[..n];
      data := data[n..];
    }
  }

  /** The first `n` frames of a stream: how many there were, how many of them were misses, and the rest. */
  datatype Taken = Taken(frames: nat, misses: nat, rest: bytes)

  function MissIn(body: bytes): nat { if FromProtoCode(body) == Miss then 1 else 0 }

  function Take(b: bytes, n: nat): (t: Taken)
    ensures t.frames <= n
    decreases n
  {
    if n == 0 || NextFrame(b).None? then Taken(0, 0, b) else
    var t := Take(Rest(b), n - 1);
    Taken(t.frames + 1, t.misses + MissIn(NextFrame(b).value), t.rest)
  }

  function Misses(rs: seq<Resp>): nat {
    if rs == [] then 0 else (if rs[0] == Miss then 1 else 0) + Misses(rs[1..])
  }

  /** On a stream the server encoded, it takes exactly the responses asked for and counts the misses among them. */
  lemma {:induction false} TakeResponses(rs: seq<Resp>, tail: bytes)
    requires forall i :: 0 <= i < |rs| ==> Encodable(rs[i])
    ensures Take(ResponseStream(rs) + tail, |rs|) == Taken(|rs|, Misses(rs), tail)
  {
    hide NextFrame, Frame, Rest, RespBody;
    var bodies := RespBodies(rs);
    if rs == [] {
      assert ResponseStream(rs) + tail == tail;
    } else {
      assert RespBodies(rs[1..]) == bodies[1..];
      var rest := ResponseStream(rs[1..]) + tail;
      Assoc(Frame(bodies[0]), ResponseStream(rs[1..]), tail);
      BodyLength(rs[0]);
      RespRoundTrip(rs[0]);
      FrameParses(bodies[0], rest);
      TakeResponses(rs[1..], tail);
    }
  }

  /** It takes the frames the plain parser finds. */
  lemma {:induction false} TakeIsFrames(b: bytes, n: nat)
    ensures var t := Take(b, n);
            && t.frames == (if n <= |Frames(b)| then n else |Frames(b)|)
            && t.misses == Misses(Decoded(Frames(b)[..t.frames]))
            && Frames(t.rest) == Frames(b)[t.frames..] && Leftover(t.rest) == Leftover(b)
    decreases n
  {
    hide NextFrame, Rest;
    if n > 0 && NextFrame(b).Some? {
      TakeIsFrames(Rest(b), n - 1);
      var t := Take(b, n);
      var all, rest := Frames(b), Frames(Rest(b));
      assert all[..t.frames][0] == NextFrame(b).value;
      assert Decoded(all[..t.frames])[1..] == Decoded(rest[..t.frames - 1]);
      assert all[t.frames..] == rest[t.frames - 1..];
    } else {
      assert Decoded(Frames(b)[..0]) == [];
    }
  }

  lemma Inside(s: bytes, a: nat, b: nat, i: nat, j: nat)
    requires a <= b <= |s| && i <= j <= b - a
    ensures s[a..b][i..j] == s[a + i..a + j]
  {
    var x, y := s[a..b][i..j], s[a + i..a + j];
    forall k | 0 <= k < j - i ensures x[k] == y[k] {
      assert s[a..b][i + k] == s[a + i + k];
    }
  }

  class FrameReader {
    var buf: array<byte>
    var have: nat
    var pos: nat
    var misses: nat

    ghost predicate Valid()
      reads this
    {
      pos <= have <= buf.Length && buf.Length > 0
    }

    /** The live window: bytes received and not yet consumed. */
    function Window(): bytes
      requires Valid()
      reads this, buf
    {
      buf[pos..have]
    }

    constructor ()
      ensures Valid() && fresh(buf) && Window() == [] && misses == 0
    {
      buf := new byte[0x10_0000](_ => 0);
      have, pos, misses := 0, 0, 0;
    }

    /** `copy_within`: shifts the window to the front. */
    method Compact()
      requires Valid()
      modifies this`have, this`pos, buf
      ensures Valid() && pos == 0 && Window() == old(Window())
    {
      ghost var was := buf[..];
      var n := have - pos;
      for i := 0 to n
        invariant have == old(have) && pos == old(pos)
        invariant forall k :: 0 <= k < i ==> buf[k] == was[pos + k]
        invariant forall k :: pos + i <= k < buf.Length ==> buf[k] == was[k]
      {
        buf[i] := buf[pos + i];
      }
      have, pos := n, 0;
    }

    /** `resize` to twice the length. */
    method Double()
      requires Valid()
      modifies this
      ensures Valid() && fresh(buf) && buf.Length == 2 * old(buf.Length)
      ensures have == old(have) && pos == old(pos) && misses == old(misses) && Window() == old(Window())
    {
      var bigger := new byte[2 * buf.Length](_ => 0);
      for i := 0 to buf.Length
        invariant buf == old(buf) && have == old(have) && pos == old(pos) && misses == old(misses)
        invariant buf[..] == old(buf[..])
        invariant bigger[..i] == buf[..i]
      {
        bigger[i] := buf[i];
      }
      assert bigger[pos..have] == bigger[..buf.Length][pos..have] == buf[..buf.Length][pos..have];
      buf := bigger;
    }

    /** One read into the free part of the buffer, after making room. */
    method Refill(sock: Socket) returns (n: nat)
      requires Valid()
      modifies this, buf, sock
      ensures Valid() && (buf == old(buf) || fresh(buf)) && misses == old(misses)
      ensures Window() + sock.data == old(Window() + sock.data)
      ensures n == 0 <==> old(sock.data) == []
      ensures |old(sock.data)| == |sock.data| + n
    {
      if pos > 0 {
        Compact();
      }
      if have == buf.Length {
        Double();
      }
      ghost var w := Window();
      var chunk := sock.Recv(buf.Length - have);
      Store(chunk);
      n := |chunk|;
      Assoc(w, chunk, sock.data);
    }

    method Store(chunk: bytes)
      requires Valid() && have + |chunk| <= buf.Length
      modifies this`have, buf
      ensures Valid() && Window() == old(Window()) + chunk
    {
      for i := 0 to |chunk|
        invariant have == old(have)
        invariant buf[..have] == old(buf[..have])
        invariant buf[have..have + i] == chunk[..i]
      {
        buf[have + i] := chunk[i];
      }
      ghost var h := have;
      have := have + |chunk|;
      assert buf[pos..have] == buf[..h][pos..] + buf[h..have];
    }

    /**
     Reads `count` responses. The window followed by the bytes still to arrive is always the unread
     stream: at the end exactly the first `count` frames are gone from it, or, if the server closed
     before that many were complete, all complete ones.
     */
    method ReadFrames(sock: Socket, count: nat) returns (ok: bool, rx: nat)
      requires Valid()
      modifies this, buf, sock
      ensures Valid()
      ensures var t := Take(old(Window() + sock.data), count);
              && ok == (t.frames == count)
              && Window() + sock.data == t.rest
              && misses == old(misses) + t.misses
      ensures rx == |old(sock.data)| - |sock.data|
      ensures !ok ==> sock.data == []
    {
      hide NextFrame, Rest;
      rx := 0;
      var left: nat := count;
      ghost var goal := Take(Window() + sock.data, count);
      while left > 0
        invariant Valid() && left <= count && (buf == old(buf) || fresh(buf))
        invariant rx == |old(sock.data)| - |sock.data|
        invariant var t := Take(Window() + sock.data, left);
                  && goal.frames == count - left + t.frames && goal.rest == t.rest
                  && old(misses) + goal.misses == misses + t.misses
        decreases left + |sock.data|
      {
        ghost var w := Window();
        var full := ConsumeFrame();
        if full {
          NextFrameStable(w, sock.data);
          left := left - 1;
        } else {
          var n := Refill(sock);
          if n == 0 {
            assert w + sock.data == w;
            return false, rx;
          }
          rx := rx + n;
        }
      }
      ok := true;
    }

    /** If the window starts with a complete frame, steps over it. */
    method ConsumeFrame() returns (full: bool)
      requires Valid()
      modifies this`pos, this`misses
      ensures Valid() && full == NextFrame(old(Window())).Some?
      ensures !full ==> pos == old(pos) && misses == old(misses)
      ensures full ==> Window() == Rest(old(Window())) && misses == old(misses) + MissIn(NextFrame(old(Window())).value)
    {
      if have - pos >= 4 {
        var len := UnLE(buf[pos..pos + 4]);
        Inside(buf[..], pos, have, 0, 4);
        if have - pos >= 4 + len {
          Inside(buf[..], pos, have, 4, 4 + len);
          Inside(buf[..], pos, have, 4 + len, have - pos);
          if len >= 1 && buf[pos + 4] == 2 {
            misses := misses + 1;
          }
          pos := pos + 4 + len;
          return true;
        }
      }
      return false;
    }
  }
}
