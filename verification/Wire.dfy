/** The wire protocol (crates/wire/src/lib.rs): request bodies, their parts, and response codes. */
module Wire {
  import opened Bytes

  /** The longest request body a connection accepts (crates/server/src/stage1/mod.rs). */
  const MAX_BODY: nat := 8 * 1024 * 1024

  type Kv = map<bytes, bytes>

  datatype Operation = Get | Put | Unknown(code: byte)

  datatype Resp = Value(data: bytes) | Ok | Miss | UnknownOp | Unrecognised

  function ToOperation(code: byte): Operation {
    if code == 0 then Get else if code == 1 then Put else Unknown(code)
  }

  function FromOperation(op: Operation): byte {
    match op
    case Get => 0
    case Put => 1
    case Unknown(c) => c
  }

  function OpOf(body: bytes): Operation
    requires |body| > 0
  {
    ToOperation(body[0])
  }

  /** The opcodes on the wire. */
  lemma Opcodes(c: byte, rest: bytes)
    ensures OpOf([0] + rest) == Get && OpOf([1] + rest) == Put
    ensures c > 1 ==> OpOf([c] + rest) == Unknown(c)
    ensures FromOperation(Get) == 0 && FromOperation(Put) == 1 && FromOperation(Unknown(c)) == c
  {
  }

  /** What the accessors below index without a check: outside it, the source panics. */
  predicate WellFormed(body: bytes) {
    && |body| >= 1
    && (!OpOf(body).Unknown? ==> |body| >= 5 && UnLE(body[1..5]) <= |body| - 5)
  }

  predicate IsPut(body: bytes) { WellFormed(body) && OpOf(body) == Put }

  function SplitKv(body: bytes): (kv: (bytes, bytes))
    requires WellFormed(body) && !OpOf(body).Unknown?
    ensures body == body[..5] + kv.0 + kv.1
  {
    var klen := UnLE(body[1..5]);
    (body[5..5 + klen], body[5 + klen..])
  }

  function KeyOf(body: bytes): bytes
    requires WellFormed(body) && !OpOf(body).Unknown?
  {
    SplitKv(body).0
  }

  function ApplyPut(db: Kv, body: bytes): Kv
    requires IsPut(body)
  {
    var (k, v) := SplitKv(body);
    db[k := v]
  }

  function EncodeBody(op: Operation, key: bytes, val: bytes): bytes {
    [FromOperation(op)] + LE(|key|, 4) + key + val
  }

  /** `encode_raw`: appends one length-prefixed request; a PUT without a value appends nothing. */
  method EncodeRaw(buf: bytes, op: Operation, key: bytes, value: Option<bytes>) returns (buf': bytes, n: nat)
    ensures op == Put && value.None? ==> buf' == buf && n == 0
    ensures !(op == Put && value.None?) ==>
              var body := EncodeBody(op, key, if value.None? then [] else value.value);
              buf' == buf + (LE(|body|, 4) + body) && n == 4 + |body|
  {
    if op == Put && value.None? {
      return buf, 0;
    }
    ghost var body := EncodeBody(op, key, if value.None? then [] else value.value);
    var bodyLen := 1 + 4 + |key| + (if value.None? then 0 else |value.value|);
    var b := LE(bodyLen, 4);
    var rest := [FromOperation(op)] + LE(|key|, 4) + key;
    if value.Some? {
      rest := rest + value.value;
    }
    assert rest == body;
    buf' := buf + (b + rest);
    n := |buf'| - |buf|;
  }

  /** Any request the encoder accepts is well formed and splits back into what went in. */
  lemma BodyRoundTrip(op: Operation, key: bytes, val: bytes)
    requires |key| < U32
    requires op.Unknown? ==> op.code > 1
    ensures var body := EncodeBody(op, key, val);
            && WellFormed(body)
            && OpOf(body) == op
            && (!op.Unknown? ==> SplitKv(body) == (key, val))
  {
    var body := EncodeBody(op, key, val);
    Slices([FromOperation(op)], LE(|key|, 4), key, val);
    ReadBack32(|key|);
    assert body[0] == FromOperation(op);
    assert body[1..5] == LE(|key|, 4);
  }

  function ToProtoCode(r: Resp): byte {
    match r
    case Value(_) => 0
    case Ok => 1
    case Miss => 2
    case UnknownOp => 3
    case Unrecognised => 4
  }

  function FromProtoCode(body: bytes): Resp {
    if body == [] then Unrecognised else
    if body[0] == 0 then Value(body[1..]) else
    if body[0] == 1 then Ok else
    if body[0] == 2 then Miss else
    if body[0] == 3 then UnknownOp else Unrecognised
  }

  /** The response codes on the wire, in both directions; anything else is not recognised. */
  lemma ResponseCodes(data: bytes, body: bytes)
    ensures ToProtoCode(Value(data)) == 0 && ToProtoCode(Ok) == 1
    ensures ToProtoCode(Miss) == 2 && ToProtoCode(UnknownOp) == 3
    ensures FromProtoCode([0] + data) == Value(data) && FromProtoCode([1] + data) == Ok
    ensures FromProtoCode([2] + data) == Miss && FromProtoCode([3] + data) == UnknownOp
    ensures FromProtoCode(body) == Unrecognised <==> body == [] || body[0] > 3
  {
    assert ([0] + data)[1..] == data;
  }
}
