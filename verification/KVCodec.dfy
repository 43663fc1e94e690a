/** The payload codec of the key-value application: byte arithmetic written out. */
module KVCodec {
  type Byte = b: int | 0 <= b < 256
  type Int32 = i: int | -0x8000_0000 <= i < 0x8000_0000

  /** `op` is the underlying byte of the operation code. */
  datatype AppRequest = AppRequest(op: Byte, key: seq<Byte>, value: seq<Byte>, clientId: Int32, reqId: Int32)

  const HEADER_BYTES := 14

  class RequestRecord {
    var op: Byte
    var key: seq<Byte>
    var value: seq<Byte>
    var clientId: Int32
    var reqId: Int32

    ghost function Contents(): AppRequest
      reads this
    {
      AppRequest(op, key, value, clientId, reqId)
    }
  }

  // ---- what the bytes mean

  /** The byte at position i of v in little-endian two's complement: (v >> 8i) & 0xff. */
  function ByteOf(v: int, i: nat): Byte
    decreases i
  {
    if i == 0 then v % 256 else ByteOf(v / 256, i - 1)
  }

  function U16(lo: Byte, hi: Byte): nat { lo + 256 * hi }

  function I32(b0: Byte, b1: Byte, b2: Byte, b3: Byte): Int32 {
    var u := b0 + 256 * b1 + 65536 * b2 + 16777216 * b3;
    if u < 0x8000_0000 then u else u - 0x1_0000_0000
  }

  /** The cast that cuts a length to 16 bits. */
  function Cast16(n: nat): (r: nat)
    ensures r < 65536 && (n < 65536 ==> r == n)
  {
    n % 65536
  }

  lemma U16RoundTrip(n: nat)
    ensures U16(ByteOf(Cast16(n), 0), ByteOf(Cast16(n), 1)) == Cast16(n)
  {
    var k := Cast16(n);
    hide Cast16;
    assert ByteOf(k, 1) == k / 256 % 256;
  }

  lemma I32RoundTrip(v: Int32)
    ensures I32(ByteOf(v, 0), ByteOf(v, 1), ByteOf(v, 2), ByteOf(v, 3)) == v
  {
    var q1 := v / 256;
    var q2 := q1 / 256;
    var q3 := q2 / 256;
    BytesOf(v);
    hide ByteOf;
    Recombine(v, q1, q2, q3, v % 256, q1 % 256, q2 % 256, q3 % 256);
  }

  lemma BytesOf(v: int)
    ensures ByteOf(v, 0) == v % 256 && ByteOf(v, 1) == v / 256 % 256
    ensures ByteOf(v, 2) == v / 256 / 256 % 256 && ByteOf(v, 3) == v / 256 / 256 / 256 % 256
  {
    assert ByteOf(v, 1) == ByteOf(v / 256, 0);
    assert ByteOf(v, 2) == ByteOf(v / 256, 1) == ByteOf(v / 256 / 256, 0);
    assert ByteOf(v, 3) == ByteOf(v / 256, 2) == ByteOf(v / 256 / 256, 1) == ByteOf(v / 256 / 256 / 256, 0);
  }

  lemma Recombine(v: Int32, q1: int, q2: int, q3: int, b0: Byte, b1: Byte, b2: Byte, b3: Byte)
    requires v == 256 * q1 + b0 && q1 == 256 * q2 + b1 && q2 == 256 * q3 + b2 && b3 == q3 % 256
    ensures I32(b0, b1, b2, b3) == v
  {
    assert b3 == if q3 < 0 then q3 + 256 else q3;
  }

  function Header(req: AppRequest): (h: seq<Byte>)
    ensures |h| == HEADER_BYTES
  {
    var k, v := Cast16(|req.key|), Cast16(|req.value|);
    [req.op, 0, ByteOf(k, 0), ByteOf(k, 1), ByteOf(v, 0), ByteOf(v, 1),
     ByteOf(req.clientId, 0), ByteOf(req.clientId, 1), ByteOf(req.clientId, 2), ByteOf(req.clientId, 3),
     ByteOf(req.reqId, 0), ByteOf(req.reqId, 1), ByteOf(req.reqId, 2), ByteOf(req.reqId, 3)]
  }

  function Zeros(n: nat): (z: seq<Byte>)
    ensures |z| == n && forall i :: 0 <= i < n ==> z[i] == 0
  {
    seq(n, i => 0)
  }

  predicate Fits(req: AppRequest, payload: nat) {
    payload >= HEADER_BYTES && |req.key| + |req.value| <= payload - HEADER_BYTES
  }

  function Encoded(req: AppRequest, payload: nat): (r: seq<Byte>)
    requires Fits(req, payload)
    ensures |r| == payload
  {
    Header(req) + req.key + req.value + Zeros(payload - HEADER_BYTES - |req.key| - |req.value|)
  }

  /** Success, and what the output record holds afterwards: on a length error the operation and the ids have
      already been written. */
  function Decoded(buf: seq<Byte>, out: AppRequest): (bool, AppRequest) {
    if |buf| < HEADER_BYTES then (false, out) else
      var klen, vlen := U16(buf[2], buf[3]), U16(buf[4], buf[5]);
      var ids := out.(op := buf[0], clientId := I32(buf[6], buf[7], buf[8], buf[9]),
                      reqId := I32(buf[10], buf[11], buf[12], buf[13]));
      if klen + vlen > |buf| - HEADER_BYTES then (false, ids)
      else (true, ids.(key := buf[HEADER_BYTES..HEADER_BYTES + klen],
                       value := buf[HEADER_BYTES + klen..HEADER_BYTES + klen + vlen]))
  }

  /** What is read back from the header. */
  lemma HeaderFields(req: AppRequest)
    ensures var h := Header(req);
      && h[0] == req.op && U16(h[2], h[3]) == Cast16(|req.key|) && U16(h[4], h[5]) == Cast16(|req.value|)
      && I32(h[6], h[7], h[8], h[9]) == req.clientId && I32(h[10], h[11], h[12], h[13]) == req.reqId
  {
    hide U16, I32, ByteOf, Cast16;
    U16RoundTrip(|req.key|);
    U16RoundTrip(|req.value|);
    I32RoundTrip(req.clientId);
    I32RoundTrip(req.reqId);
  }

  lemma EncodedHeader(req: AppRequest, payload: nat)
    requires Fits(req, payload)
    ensures forall i :: 0 <= i < HEADER_BYTES ==> Encoded(req, payload)[i] == Header(req)[i]
  {
    hide Header, Zeros;
  }

  lemma EncodedFields(req: AppRequest, payload: nat)
    requires Fits(req, payload)
    ensures var buf := Encoded(req, payload);
      && buf[0] == req.op && U16(buf[2], buf[3]) == Cast16(|req.key|) && U16(buf[4], buf[5]) == Cast16(|req.value|)
      && I32(buf[6], buf[7], buf[8], buf[9]) == req.clientId && I32(buf[10], buf[11], buf[12], buf[13]) == req.reqId
  {
    hide U16, I32, ByteOf, Cast16, Header, Encoded, Zeros;
    HeaderFields(req);
    EncodedHeader(req, payload);
  }

  /** The round trip: a request that the encoder accepts comes back unchanged, negative ids included,
      exactly when its key and its value are both shorter than 65536 bytes. */
  lemma CodecRoundTrip(req: AppRequest, payload: nat, out: AppRequest)
    requires Fits(req, payload)
    ensures Decoded(Encoded(req, payload), out) == (true, req) <==> |req.key| < 65536 && |req.value| < 65536
  {
    if |req.key| < 65536 && |req.value| < 65536 {
      ShortComesBack(req, payload, out);
    } else {
      LongIsCut(req, payload, out);
    }
  }

  lemma ShortComesBack(req: AppRequest, payload: nat, out: AppRequest)
    requires Fits(req, payload) && |req.key| < 65536 && |req.value| < 65536
    ensures Decoded(Encoded(req, payload), out) == (true, req)
  {
    hide Encoded, Header, U16, I32, ByteOf, Cast16, Decoded;
    var buf := Encoded(req, payload);
    EncodedFields(req, payload);
    EncodedSlices(req, payload);
    DecodedFields(buf, out, |req.key|, |req.value|);
  }

  lemma DecodedFields(buf: seq<Byte>, out: AppRequest, klen: nat, vlen: nat)
    requires |buf| >= HEADER_BYTES + klen + vlen && U16(buf[2], buf[3]) == klen && U16(buf[4], buf[5]) == vlen
    ensures Decoded(buf, out) == (true, AppRequest(buf[0], buf[HEADER_BYTES..HEADER_BYTES + klen],
                                                   buf[HEADER_BYTES + klen..HEADER_BYTES + klen + vlen],
                                                   I32(buf[6], buf[7], buf[8], buf[9]),
                                                   I32(buf[10], buf[11], buf[12], buf[13])))
    ensures |Decoded(buf, out).1.key| == klen
  {
    hide U16, I32;
  }

  lemma EncodedSlices(req: AppRequest, payload: nat)
    requires Fits(req, payload)
    ensures var buf := Encoded(req, payload);
      && buf[HEADER_BYTES..HEADER_BYTES + |req.key|] == req.key
      && buf[HEADER_BYTES + |req.key|..HEADER_BYTES + |req.key| + |req.value|] == req.value
  {
    hide Header, Zeros;
  }

  lemma LongIsCut(req: AppRequest, payload: nat, out: AppRequest)
    requires Fits(req, payload) && (|req.key| >= 65536 || |req.value| >= 65536)
    ensures Decoded(Encoded(req, payload), out) != (true, req)
  {
    hide Encoded, Header, U16, I32, ByteOf, Cast16;
    EncodedFields(req, payload);
    var (ok, r) := Decoded(Encoded(req, payload), out);
    if ok {
      assert |r.key| == Cast16(|req.key|) && |r.value| == Cast16(|req.value|);
    }
  }

  /** An accepted request that is lost: a key of 65536 bytes comes back empty. */
  lemma LongKeyIsLost(out: AppRequest) returns (req: AppRequest, payload: nat)
    ensures Fits(req, payload) && |req.key| == 65536 && req.value == []
    ensures Decoded(Encoded(req, payload), out).0 && |Decoded(Encoded(req, payload), out).1.key| == 0
  {
    payload := HEADER_BYTES + 65536;
    req := AppRequest(1, Zeros(65536), [], -1, 7);
    KeyComesBackEmpty(req, payload, out);
  }

  lemma KeyComesBackEmpty(req: AppRequest, payload: nat, out: AppRequest)
    requires Fits(req, payload) && Cast16(|req.key|) == 0 && req.value == []
    ensures Decoded(Encoded(req, payload), out).0 && |Decoded(Encoded(req, payload), out).1.key| == 0
  {
    hide Encoded, Header, U16, I32, ByteOf, Cast16, Decoded;
    EncodedFields(req, payload);
    DecodedFields(Encoded(req, payload), out, 0, 0);
  }

  /** For payloads of at most 14 + 65535 bytes every accepted request comes back. */
  lemma CodecRoundTripSmall(req: AppRequest, payload: nat, out: AppRequest)
    requires Fits(req, payload) && payload <= HEADER_BYTES + 65535
    ensures Decoded(Encoded(req, payload), out) == (true, req)
  {
    CodecRoundTrip(req, payload, out);
  }

  /** Distinct accepted requests have distinct payloads. */
  lemma EncodedInjective(r1: AppRequest, r2: AppRequest, payload: nat)
    requires Fits(r1, payload) && Fits(r2, payload) && payload <= HEADER_BYTES + 65535
    requires Encoded(r1, payload) == Encoded(r2, payload)
    ensures r1 == r2
  {
    CodecRoundTripSmall(r1, payload, r1);
    CodecRoundTripSmall(r2, payload, r1);
  }

  // ---- the methods

  method PutU16(buf: array<Byte>, off: nat, v: nat)
    requires off + 2 <= buf.Length
    modifies buf
    ensures buf[..off + 2] == old(buf[..off]) + [ByteOf(v, 0), ByteOf(v, 1)] && buf[off + 2..] == old(buf[off + 2..])
  {
    buf[off] := v % 256;
    buf[off + 1] := v / 256 % 256;
    BytesOf(v);
  }

  method PutI32(buf: array<Byte>, off: nat, v: Int32)
    requires off + 4 <= buf.Length
    modifies buf
    ensures buf[..off + 4] == old(buf[..off]) + [ByteOf(v, 0), ByteOf(v, 1), ByteOf(v, 2), ByteOf(v, 3)]
    ensures buf[off + 4..] == old(buf[off + 4..])
  {
    buf[off] := v % 256;
    buf[off + 1] := v / 256 % 256;
    buf[off + 2] := v / 256 / 256 % 256;
    buf[off + 3] := v / 256 / 256 / 256 % 256;
    BytesOf(v);
  }

  method PutBytes(buf: array<Byte>, off: nat, s: seq<Byte>)
    requires off + |s| <= buf.Length
    modifies buf
    ensures buf[..off + |s|] == old(buf[..off]) + s && buf[off + |s|..] == old(buf[off + |s|..])
  {
    for i := 0 to |s|
      invariant buf[..] == old(buf[..off]) + s[..i] + old(buf[off + i..])
    {
      buf[off + i] := s[i];
    }
  }

  method Encode(req: AppRequest, out: array<Byte>) returns (ok: bool)
    modifies out
    ensures ok <==> Fits(req, out.Length)
    ensures out[..] == if ok then Encoded(req, out.Length) else Zeros(out.Length)
  {
    for i := 0 to out.Length
      invariant out[..i] == Zeros(i)
    {
      out[i] := 0;
    }
    assert out[..] == Zeros(out.Length);
    if out.Length < HEADER_BYTES { return false; }
    if |req.key| + |req.value| > out.Length - HEADER_BYTES { return false; }
    PutRequest(req, out);
    return true;
  }

  /** Writing a request that fits into a cleared buffer. */
  method PutRequest(req: AppRequest, out: array<Byte>)
    requires Fits(req, out.Length) && out[..] == Zeros(out.Length)
    modifies out
    ensures out[..] == Encoded(req, out.Length)
  {
    hide Header;
    var k, n := |req.key|, |req.value|;
    ghost var rest := out[HEADER_BYTES + k + n..];
    assert rest == Zeros(out.Length - HEADER_BYTES - k - n);
    assert out[HEADER_BYTES..][k + n..] == rest;
    PutHeader(req, out);
    assert out[HEADER_BYTES + k..][n..] == out[HEADER_BYTES..][k + n..] == rest;
    PutBytes(out, HEADER_BYTES, req.key);
    assert out[HEADER_BYTES + k + n..] == out[HEADER_BYTES + k..][n..] == rest;
    PutBytes(out, HEADER_BYTES + k, req.value);
    assert out[..] == out[..HEADER_BYTES + k + n] + out[HEADER_BYTES + k + n..];
  }

  method PutHeader(req: AppRequest, out: array<Byte>)
    requires out.Length >= HEADER_BYTES
    modifies out
    ensures out[..HEADER_BYTES] == Header(req) && out[HEADER_BYTES..] == old(out[HEADER_BYTES..])
  {
    hide ByteOf, Cast16;
    ghost var rest := out[HEADER_BYTES..];
    out[0] := req.op;
    out[1] := 0;
    assert out[..2] == [req.op, 0] && out[2..][12..] == rest;
    PutU16(out, 2, Cast16(|req.key|));
    assert out[4..][10..] == rest;
    PutU16(out, 4, Cast16(|req.value|));
    assert out[6..][8..] == rest;
    PutI32(out, 6, req.clientId);
    assert out[10..][4..] == rest;
    PutI32(out, 10, req.reqId);
  }

  /** Every read is within the payload, whatever its bytes are. */
  method Decode(buf: array<Byte>, out: RequestRecord) returns (ok: bool)
    modifies out
    ensures (ok, out.Contents()) == Decoded(buf[..], old(out.Contents()))
  {
    if buf.Length < HEADER_BYTES { return false; }
    out.op := buf[0];
    var klen := U16(buf[2], buf[3]);
    var vlen := U16(buf[4], buf[5]);
    out.clientId := I32(buf[6], buf[7], buf[8], buf[9]);
    out.reqId := I32(buf[10], buf[11], buf[12], buf[13]);
    if klen + vlen > buf.Length - HEADER_BYTES { return false; }
    var off := HEADER_BYTES;
    out.key := buf[off..off + klen];
    off := off + klen;
    out.value := buf[off..off + vlen];
    return true;
  }
}
