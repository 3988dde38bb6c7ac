/**
 The in-memory table (crates/storage/src/db.rs) with its shared, counted value buffers, and stage 2's
 execution loop over it (crates/server/src/stage2/mod.rs). A buffer is an array, overwritten in place
 when nobody else holds it. `strong` is the count Rust keeps beside each buffer; `handles` records who
 else holds one: the `Value` responses not yet sent.
 */
module Db {
  import opened Bytes
  import opened Wire
  import opened Types
  import opened Stage2
  import ByteAnswers

  type Buf = array<byte>

  /** A response as stage 2 makes it: a GET's hit shares the table's buffer. */
  datatype Answer = Found(value: Buf) | Plain(resp: Resp)

  function Read(a: Answer): Resp
    reads if a.Found? then {a.value} else {}
  {
    match a
    case Found(v) => Value(v[..])
    case Plain(r) => r
  }

  method NewBuf(v: bytes) returns (b: Buf)
    ensures fresh(b) && b[..] == v
  {
    b := new byte[|v|](i requires 0 <= i < |v| => v[i]);
  }

  method CopyFromSlice(b: Buf, v: bytes)
    requires b.Length == |v|
    modifies b
    ensures b[..] == v
  {
    for i := 0 to |v|
      invariant b[..i] == v[..i]
    {
      b[i] := v[i];
    }
    assert v[..|v|] == v;
  }

  ghost predicate Unshared(slots: map<bytes, Buf>) {
    forall j, k :: j in slots && k in slots && j != k ==> slots[j] != slots[k]
  }

  /** Each count is the number of handles, and one more for a buffer in the table. */
  ghost predicate Counted(slots: map<bytes, Buf>, strong: map<Buf, nat>, handles: multiset<Buf>) {
    && (forall k :: k in slots ==> slots[k] in strong && strong[slots[k]] == 1 + handles[slots[k]])
    && (forall b :: b in handles ==> b in strong && (b !in slots.Values ==> strong[b] == handles[b]))
  }

  /** A slot lets go of its buffer. */
  lemma DropSlot(slots: map<bytes, Buf>, strong: map<Buf, nat>, handles: multiset<Buf>, k: bytes)
    requires Unshared(slots) && Counted(slots, strong, handles) && k in slots
    ensures slots[k] in strong && strong[slots[k]] >= 1
    ensures Unshared(slots - {k}) && Counted(slots - {k}, strong[slots[k] := strong[slots[k]] - 1], handles)
  {
    var was, rest := slots[k], slots - {k};
    forall b | b in slots.Values && b != was ensures b in rest.Values {
      var j :| j in slots && slots[j] == b;
      assert rest[j] == b;
    }
    forall j | j in rest ensures rest[j] != was {
    }
  }

  lemma ValuesWithin(slots: map<bytes, Buf>, k: bytes, b: Buf)
    ensures forall c :: c in slots[k := b].Values ==> c == b || c in slots.Values
  {
  }

  /** A slot takes a buffer nobody knows. */
  lemma AddSlot(slots: map<bytes, Buf>, strong: map<Buf, nat>, handles: multiset<Buf>, k: bytes, b: Buf)
    requires Unshared(slots) && Counted(slots, strong, handles) && k !in slots && b !in slots.Values && b !in handles
    ensures Unshared(slots[k := b]) && Counted(slots[k := b], strong[b := 1], handles)
  {
    var all := slots[k := b];
    forall j | j in slots ensures slots[j] != b && all[j] == slots[j] {
      assert slots[j] in slots.Values;
    }
    forall c | c in slots.Values ensures c in all.Values {
      var j :| j in slots && slots[j] == c;
      assert all[j] == c;
    }
  }

  lemma DropHandle(slots: map<bytes, Buf>, strong: map<Buf, nat>, handles: multiset<Buf>, b: Buf)
    requires Counted(slots, strong, handles) && b in handles
    ensures b in strong && strong[b] >= 1
    ensures Counted(slots, strong[b := strong[b] - 1], handles - multiset{b})
  {
    var fewer := handles - multiset{b};
    assert forall c :: fewer[c] == if c == b then handles[c] - 1 else handles[c];
    if b in slots.Values {
      var k :| k in slots && slots[k] == b;
      assert strong[b] == 1 + handles[b];
    }
  }

  /** The counts once the slot `k`, if there is one, has let go of its buffer. */
  function Dropped(slots: map<bytes, Buf>, strong: map<Buf, nat>, k: bytes): map<Buf, nat> {
    if k in slots && slots[k] in strong && strong[slots[k]] > 0 then strong[slots[k] := strong[slots[k]] - 1]
    else strong
  }

  lemma SwapSlot(slots: map<bytes, Buf>, strong: map<Buf, nat>, handles: multiset<Buf>, k: bytes, b: Buf)
    requires Unshared(slots) && Counted(slots, strong, handles) && b !in slots.Values && b !in handles
    ensures Unshared(slots[k := b]) && Counted(slots[k := b], Dropped(slots, strong, k)[b := 1], handles)
  {
    hide Unshared, Counted;
    var rest := slots - {k};
    assert slots[k := b] == rest[k := b];
    if k in slots {
      DropSlot(slots, strong, handles, k);
    } else {
      assert rest == slots;
    }
    assert b !in rest.Values by { ValuesFewer(slots, k); }
    AddSlot(rest, Dropped(slots, strong, k), handles, k, b);
  }

  lemma ValuesFewer(slots: map<bytes, Buf>, k: bytes)
    ensures forall c :: c in (slots - {k}).Values ==> c in slots.Values
  {
  }

  class Table {
    var slots: map<bytes, Buf>
    var strong: map<Buf, nat>
    ghost var handles: multiset<Buf>

    /** No two keys share a buffer, and every count is right. */
    ghost predicate Valid()
      reads this
    {
      Unshared(slots) && Counted(slots, strong, handles)
    }

    /** The pure map the table stands for. */
    ghost function Contents(): Kv
      reads this, slots.Values
    {
      map k | k in slots :: slots[k][..]
    }

    constructor ()
      ensures Valid() && Contents() == map[] && handles == multiset{}
    {
      slots, strong, handles := map[], map[], multiset{};
    }

    /** A hit hands out another reference to the stored buffer. */
    method Get(k: bytes) returns (a: Answer)
      requires Valid()
      modifies this`strong, this`handles
      ensures Valid() && slots == old(slots)
      ensures Read(a) == if k in Contents() then Value(Contents()[k]) else Miss
      ensures handles == old(handles) + if a.Found? then multiset{a.value} else multiset{}
    {
      if k in slots {
        var b := slots[k];
        strong := strong[b := strong[b] + 1];
        handles := handles + multiset{b};
        return Found(b);
      }
      return Plain(Miss);
    }

    /** A response has been sent and its buffer let go. */
    method Release(b: Buf)
      requires Valid() && b in handles
      modifies this`strong, this`handles
      ensures Valid() && slots == old(slots) && handles == old(handles) - multiset{b}
    {
      DropHandle(slots, strong, handles, b);
      hide Counted, Unshared;
      handles := handles - multiset{b};
      strong := strong[b := strong[b] - 1];
    }

    /** The slot gets a buffer of its own; whoever holds the old one keeps it. */
    method InsertRaw(k: bytes, v: bytes)
      requires Valid()
      modifies this`slots, this`strong
      ensures Valid() && Contents() == old(Contents())[k := v]
      ensures forall b :: b in slots.Values ==> b in old(slots.Values) || fresh(b)
    {
      hide Unshared, Counted, Dropped;
      ghost var before := Contents();
      var b := NewBuf(v);
      assert b !in slots.Values && b !in handles;
      SwapSlot(slots, strong, handles, k, b);
      ValuesWithin(slots, k, b);
      strong := Dropped(slots, strong, k)[b := 1];
      slots := slots[k := b];
      forall j | j in slots ensures slots[j][..] == before[k := v][j] {
        if j != k { assert slots[j] in old(slots.Values); }
      }
      assert Contents() == before[k := v];
    }

    /** Nobody else holds the buffer, so nobody notices. */
    method Overwrite(k: bytes, v: bytes)
      requires Valid() && k in slots && slots[k].Length == |v| && strong[slots[k]] == 1
      modifies slots[k]
      ensures Contents() == old(Contents())[k := v]
      ensures slots[k] !in handles
    {
      CopyFromSlice(slots[k], v);
    }

    /**
     In place when the length matches and nobody else holds the buffer. Either way the table is the
     updated map, and every response handed out keeps the bytes it was given.
     */
    method Put(k: bytes, v: bytes)
      requires Valid()
      modifies this`slots, this`strong, slots.Values
      ensures Valid() && Contents() == old(Contents())[k := v]
      ensures forall b :: b in old(handles) ==> b[..] == old(b[..])
      ensures forall b :: b in slots.Values ==> b in old(slots.Values) || fresh(b)
    {
      hide Unshared, Contents;
      if k in slots && slots[k].Length == |v| && strong[slots[k]] == 1 {
        Overwrite(k, v);
      } else {
        InsertRaw(k, v);
      }
    }
  
    /** One request of a batch. */
    method Execute(body: bytes) returns (a: Answer)
      requires Valid() && WellFormed(body)
      modifies this, slots.Values
      ensures Valid() && Contents() == Perform(old(Contents()), body)
      ensures Read(a) == RespTo(old(Contents()), body)
      ensures old(handles) <= handles && (a.Found? ==> a.value in handles)
      ensures forall b :: b in old(handles) ==> b[..] == old(b[..])
      ensures forall b :: b in slots.Values ==> b in old(slots.Values) || fresh(b)
    {
      hide Unshared, Counted, SplitKv;
      match OpOf(body) {
        case Get => a := Get(KeyOf(body));
        case Put =>
          var (k, v) := SplitKv(body);
          Put(k, v);
          a := Plain(Ok);
        case Unknown(_) => a := Plain(UnknownOp);
      }
    }

    /**
     `apply_batch`: executes the requests in order. Each gets the answer of the map as its predecessors
     left it, and still reads as that answer at the end, although later PUTs may have overwritten the key.
     */
    method Apply(bodies: seq<bytes>, lsn: nat) returns (answers: seq<Answer>, hi: nat)
      requires Valid() && AllWellFormed(bodies)
      modifies this, slots.Values
      ensures Valid() && Contents() == Exec(old(Contents()), bodies)
      ensures hi == lsn + |RecsOf(lsn, bodies)|
      ensures |answers| == |bodies| && old(handles) <= handles
      ensures forall i :: 0 <= i < |bodies| ==>
        Read(answers[i]) == RespTo(Exec(old(Contents()), bodies[..i]), bodies[i])
      ensures forall i :: 0 <= i < |bodies| ==> ByteAnswers.RightAnswer(old(Contents()), bodies, i, Read(answers[i]))
      ensures forall i :: 0 <= i < |bodies| && answers[i].Found? ==> answers[i].value in handles
      ensures forall b :: b in old(handles) ==> b[..] == old(b[..])
    {
      hide Unshared, Counted, WellFormed, Exec, RecsOf, RespTo, Contents;
      ghost var goal := Goal(old(Contents()), bodies);
      answers, hi := [], lsn;
      NothingYet(old(Contents()), lsn, bodies);
      for i := 0 to |bodies|
        invariant Valid() && Contents() == Exec(old(Contents()), bodies[..i])
        invariant hi == lsn + |RecsOf(lsn, bodies[..i])|
        invariant |answers| == i && old(handles) <= handles
        invariant forall j :: 0 <= j < i ==> Read(answers[j]) == goal[j]
        invariant forall j :: 0 <= j < i && answers[j].Found? ==> answers[j].value in handles
        invariant forall b :: b in old(handles) ==> b[..] == old(b[..])
        invariant forall b :: b in slots.Values ==> b in old(slots.Values) || fresh(b)
      {
        OneMore(old(Contents()), lsn, bodies, i);
        if OpOf(bodies[i]) == Operation.Put {
          hi := hi + 1;
        }
        var a := Execute(bodies[i]);
        answers := answers + [a];
      }
      assert bodies[..|bodies|] == bodies;
      forall i | 0 <= i < |bodies| ensures ByteAnswers.RightAnswer(old(Contents()), bodies, i, goal[i]) {
        ByteAnswers.AnswerRight(old(Contents()), bodies, i);
      }
    }
  }

  /** What a plain sequential map answers. */
  ghost function Goal(db: Kv, bodies: seq<bytes>): (g: seq<Resp>)
    requires AllWellFormed(bodies)
    ensures |g| == |bodies| && forall i :: 0 <= i < |g| ==> g[i] == RespTo(Exec(db, bodies[..i]), bodies[i])
  {
    seq(|bodies|, i requires 0 <= i < |bodies| => RespTo(Exec(db, bodies[..i]), bodies[i]))
  }

  lemma NothingYet(db: Kv, lsn: nat, bodies: seq<bytes>)
    requires AllWellFormed(bodies)
    ensures Exec(db, bodies[..0]) == db && RecsOf(lsn, bodies[..0]) == []
  {
  }

  lemma OneMore(db: Kv, lsn: nat, bodies: seq<bytes>, i: nat)
    requires AllWellFormed(bodies) && i < |bodies|
    ensures WellFormed(bodies[i]) && |bodies[i]| > 0
    ensures Exec(db, bodies[..i + 1]) == Perform(Exec(db, bodies[..i]), bodies[i])
    ensures |RecsOf(lsn, bodies[..i + 1])| == |RecsOf(lsn, bodies[..i])| + if OpOf(bodies[i]) == Put then 1 else 0
  {
    assert WellFormed(bodies[i]);
    assert bodies[..i + 1][..i] == bodies[..i];
  }
}
