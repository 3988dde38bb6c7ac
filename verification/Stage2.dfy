/**
 Stage 2's semantics (crates/server/src/stage2/mod.rs): what a sequence of request bodies does to the
 map, what each request is answered, and which LSN each PUT gets.
 */
module Stage2 {
  import opened Bytes
  import opened Wire
  import opened WalFormat
  import opened Types

  function RespTo(db: Kv, body: bytes): Resp
    requires WellFormed(body)
  {
    match OpOf(body)
    case Get => if KeyOf(body) in db then Value(db[KeyOf(body)]) else Miss
    case Put => Ok
    case Unknown(_) => UnknownOp
  }

  function Perform(db: Kv, body: bytes): Kv
    requires WellFormed(body)
  {
    if OpOf(body) == Put then ApplyPut(db, body) else db
  }

  /** The map after a plain sequential execution of the requests. */
  function Exec(db: Kv, bodies: seq<bytes>): Kv
    requires AllWellFormed(bodies)
  {
    if bodies == [] then db
    else Perform(Exec(db, bodies[..|bodies| - 1]), bodies[|bodies| - 1])
  }

  /** The records of the PUTs among `bodies`, numbered from just above the watermark `lsn`. */
  function RecsOf(lsn: nat, bodies: seq<bytes>): seq<Rec>
    requires AllWellFormed(bodies)
  {
    if bodies == [] then [] else
    var before := RecsOf(lsn, bodies[..|bodies| - 1]);
    var last := bodies[|bodies| - 1];
    if OpOf(last) == Put then before + [Rec(lsn + |before| + 1, last)] else before
  }

  lemma {:induction false} ExecAppend(db: Kv, a: seq<bytes>, b: seq<bytes>)
    requires AllWellFormed(a) && AllWellFormed(b)
    ensures Exec(db, a + b) == Exec(Exec(db, a), b)
  {
    hide Perform, WellFormed;
    if b == [] {
      assert a + b == a;
    } else {
      ExecAppend(db, a, b[..|b| - 1]);
      assert (a + b)[..|a + b| - 1] == a + b[..|b| - 1];
    }
  }

  lemma {:induction false} RecsAppend(lsn: nat, a: seq<bytes>, b: seq<bytes>)
    requires AllWellFormed(a) && AllWellFormed(b)
    ensures RecsOf(lsn, a + b) == RecsOf(lsn, a) + RecsOf(lsn + |RecsOf(lsn, a)|, b)
  {
    if b == [] {
      assert a + b == a;
    } else {
      var n := |b| - 1;
      RecsAppend(lsn, a, b[..n]);
      assert (a + b)[..|a + b| - 1] == a + b[..n];
      var ra := RecsOf(lsn, a);
      var rb := RecsOf(lsn + |ra|, b[..n]);
      if OpOf(b[n]) == Put {
        Assoc(ra, rb, [Rec(lsn + |ra| + |rb| + 1, b[n])]);
      }
    }
  }

  /** LSNs are consecutive: record `i` is numbered `lsn + 1 + i`, and holds the body of a PUT. */
  lemma {:induction false} RecsNumbered(lsn: nat, bodies: seq<bytes>)
    requires AllWellFormed(bodies)
    ensures var rs := RecsOf(lsn, bodies);
            && |rs| <= |bodies|
            && forall i :: 0 <= i < |rs| ==> rs[i].lsn == lsn + 1 + i && rs[i].body in bodies && IsPut(rs[i].body)
  {
    hide OpOf, WellFormed;
    if bodies == [] {
    } else {
      var n := |bodies| - 1;
      RecsNumbered(lsn, bodies[..n]);
      assert bodies[n] in bodies && forall x :: x in bodies[..n] ==> x in bodies;
    }
  }
}
