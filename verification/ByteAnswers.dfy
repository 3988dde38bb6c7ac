/**
 What clients are answered, said in terms of the bytes they sent (crates/server/src/stage2/mod.rs): a GET gets
 what the last PUT of its key wrote, or what was there at start-up; a PUT gets Ok; anything else UnknownOp.
 */
module ByteAnswers {
  import opened Bytes
  import opened Wire
  import opened Types
  import opened Stage2

  /** The bytes of a PUT of `v` under `k`. */
  predicate PutOf(body: bytes, k: bytes, v: bytes) { |k| < U32 && body == [1] + LE(|k|, 4) + k + v }

  /** The bytes of a GET of `k`; what follows the key is ignored. */
  predicate GetOf(body: bytes, k: bytes) {
    |k| < U32 && |body| >= 5 + |k| && body[..5 + |k|] == [0] + LE(|k|, 4) + k
  }

  ghost predicate Writes(body: bytes, k: bytes) { exists v :: PutOf(body, k, v) }

  /** Of the first `n` requests, `j` is the last to write `k`, and it wrote `v`. */
  ghost predicate LastWriter(hist: seq<bytes>, n: nat, k: bytes, j: nat, v: bytes)
    requires n <= |hist|
  {
    j < n && PutOf(hist[j], k, v) && forall i :: j < i < n ==> !Writes(hist[i], k)
  }

  ghost predicate NeverWritten(hist: seq<bytes>, n: nat, k: bytes)
    requires n <= |hist|
  {
    forall i :: 0 <= i < n ==> !Writes(hist[i], k)
  }

  /** `r` answers request `id` of the history `hist`, begun on the map `db0`. */
  ghost predicate RightAnswer(db0: Kv, hist: seq<bytes>, id: nat, r: Resp)
    requires id < |hist|
  {
    && (forall k, v :: PutOf(hist[id], k, v) ==> r == Ok)
    && (|hist[id]| > 0 && hist[id][0] > 1 ==> r == UnknownOp)
    && (forall k, j, v :: GetOf(hist[id], k) && LastWriter(hist, id, k, j, v) ==> r == Value(v))
    && (forall k :: GetOf(hist[id], k) && NeverWritten(hist, id, k) ==>
         r == if k in db0 then Value(db0[k]) else Miss)
  }

  // ---- Bodies and their bytes ----

  lemma PutParts(body: bytes, k: bytes, v: bytes)
    requires PutOf(body, k, v)
    ensures IsPut(body) && SplitKv(body) == (k, v)
  {
    BodyRoundTrip(Put, k, v);
  }

  lemma PutBytes(body: bytes)
    requires IsPut(body)
    ensures PutOf(body, SplitKv(body).0, SplitKv(body).1)
  {
    var kv := SplitKv(body);
    ReadBelow(body[1..5]);
    WriteBack(body[1..5]);
    assert Pow256(4) == U32;
    assert body[..5] == [1] + LE(|kv.0|, 4);
  }

  lemma GetParts(body: bytes, k: bytes)
    requires GetOf(body, k)
    ensures WellFormed(body) && OpOf(body) == Get && KeyOf(body) == k
  {
    var v := body[5 + |k|..];
    BodyRoundTrip(Get, k, v);
    assert body == body[..5 + |k|] + v;
  }

  lemma GetBytes(body: bytes)
    requires WellFormed(body) && OpOf(body) == Get
    ensures GetOf(body, KeyOf(body))
  {
    var k := KeyOf(body);
    ReadBelow(body[1..5]);
    WriteBack(body[1..5]);
    assert Pow256(4) == U32;
    assert body[..5] == [0] + LE(|k|, 4);
    assert body[..5 + |k|] == body[..5] + k;
  }

  lemma WritesKey(body: bytes, k: bytes)
    requires WellFormed(body)
    ensures Writes(body, k) <==> OpOf(body) == Put && KeyOf(body) == k
  {
    hide SplitKv, OpOf, UnLE;
    if v :| PutOf(body, k, v) { PutParts(body, k, v); }
    if OpOf(body) == Put && KeyOf(body) == k { PutBytes(body); }
  }

  // ---- The map after some requests ----

  /** What execution leaves under a key: what the last PUT of it wrote, or what was there before. */
  lemma {:induction false} ExecLookup(db0: Kv, hist: seq<bytes>, n: nat, k: bytes)
    requires AllWellFormed(hist) && n <= |hist|
    ensures var db := Exec(db0, hist[..n]);
            && (forall j, v :: LastWriter(hist, n, k, j, v) ==> k in db && db[k] == v)
            && (NeverWritten(hist, n, k) ==> (k in db <==> k in db0) && (k in db0 ==> db[k] == db0[k]))
  {
    hide WellFormed, PutOf, Writes, SplitKv, OpOf;
    if n > 0 {
      assert hist[..n][..n - 1] == hist[..n - 1];
      ExecLookup(db0, hist, n - 1, k);
      var body := hist[n - 1];
      WritesKey(body, k);
      forall j, v | LastWriter(hist, n, k, j, v)
        ensures k in Exec(db0, hist[..n]) && Exec(db0, hist[..n])[k] == v
      {
        if j == n - 1 { PutParts(body, k, v); } else { assert LastWriter(hist, n - 1, k, j, v); }
      }
    }
  }

  /** The answer a plain sequential map gives is the answer by the bytes. */
  lemma AnswerRight(db0: Kv, hist: seq<bytes>, id: nat)
    requires AllWellFormed(hist) && id < |hist|
    ensures RightAnswer(db0, hist, id, RespTo(Exec(db0, hist[..id]), hist[id]))
  {
    hide PutOf, GetOf, LastWriter, NeverWritten, Exec, SplitKv, UnLE;
    var body := hist[id];
    forall k, v | PutOf(body, k, v) ensures OpOf(body) == Put { PutParts(body, k, v); }
    forall k | GetOf(body, k) ensures OpOf(body) == Get && KeyOf(body) == k { GetParts(body, k); }
    if OpOf(body) == Get { ExecLookup(db0, hist, id, KeyOf(body)); }
    assert body[0] > 1 ==> OpOf(body).Unknown?;
  }

  /** Each request has one answer: the relation above leaves no choice. */
  lemma AnswerUnique(db0: Kv, hist: seq<bytes>, id: nat, r1: Resp, r2: Resp)
    requires AllWellFormed(hist) && id < |hist| && RightAnswer(db0, hist, id, r1) && RightAnswer(db0, hist, id, r2)
    ensures r1 == r2
  {
    hide PutOf, GetOf, Writes, SplitKv;
    var body := hist[id];
    match OpOf(body)
    case Put => PutBytes(body);
    case Unknown(_) =>
    case Get =>
      GetBytes(body);
      var k := KeyOf(body);
      if !NeverWritten(hist, id, k) {
        var j, v := FindWriter(hist, id, k);
        assert LastWriter(hist, id, k, j, v);
      }
  }

  lemma {:induction false} FindWriter(hist: seq<bytes>, n: nat, k: bytes) returns (j: nat, v: bytes)
    requires n <= |hist| && !NeverWritten(hist, n, k)
    ensures LastWriter(hist, n, k, j, v)
  {
    hide PutOf;
    if Writes(hist[n - 1], k) {
      j := n - 1;
      v :| PutOf(hist[n - 1], k, v);
    } else {
      j, v := FindWriter(hist, n - 1, k);
    }
  }
}
