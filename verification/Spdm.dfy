/**
 Locating the signature inside SPDM 1.1 GET_MEASUREMENTS evidence: a 37-byte request followed by
 a MEASUREMENTS response with two variable-length parts.
 */
module Spdm {
  import opened Bytes

  const REQUEST_LEN: nat := 37
  const NONCE_LEN: nat := 32
  const SIG_LEN: nat := 96       // ECDSA P-384, r || s
  const VERSION_11: byte := 0x11
  const GET_MEASUREMENTS: byte := 0xe0
  const MEASUREMENTS: byte := 0x60

  datatype Result =
    | Accepted
    | EvidenceTooShort
    | BadRequestVersion | BadRequestCode | NonceMismatch
    | BadResponseVersion | BadResponseCode
    | NoRoomForNonce | NoRoomForOpaqueLength | NoRoomForOpaque | NoRoomForSignature
    | SignatureInvalid

  /** The variable parts of a response, with any bytes after the signature. */
  datatype Response = Response(param1: byte, param2: byte, blocks: byte,
                               record: bytes, nonce: bytes, opaqueData: bytes,
                               signature: bytes, trailing: bytes)

  function LittleEndian(n: nat, w: nat): (s: bytes)
    ensures |s| == w
  {
    if w == 0 then [] else [(n % 256) as byte] + LittleEndian(n / 256, w - 1)
  }

  /** The length field at `at`: two or three bytes, least significant first. */
  function Length2(s: bytes, at: nat): (n: nat)
    requires at + 2 <= |s|
    ensures n < 0x1_0000
  {
    s[at] as nat + 256 * s[at + 1] as nat
  }

  function Length3(s: bytes, at: nat): (n: nat)
    requires at + 3 <= |s|
    ensures n < 0x100_0000
  {
    s[at] as nat + 256 * s[at + 1] as nat + 0x1_0000 * s[at + 2] as nat
  }

  predicate WellFormed(r: Response) {
    && |r.record| < 0x100_0000 && |r.nonce| == NONCE_LEN
    && |r.opaqueData| < 0x1_0000 && |r.signature| == SIG_LEN
  }

  /** The response up to, and not including, its signature. */
  function Unsigned(r: Response): bytes {
    [VERSION_11, MEASUREMENTS, r.param1, r.param2, r.blocks] + LittleEndian(|r.record|, 3)
    + r.record + r.nonce + LittleEndian(|r.opaqueData|, 2) + r.opaqueData
  }

  predicate WellFormedRequest(request: bytes, nonce: bytes) {
    && |request| == REQUEST_LEN && |nonce| == NONCE_LEN
    && request[0] == VERSION_11 && request[1] == GET_MEASUREMENTS && request[4..36] == nonce
  }

  function Evidence(request: bytes, r: Response): bytes {
    request + Unsigned(r) + r.signature + r.trailing
  }

  /**
   Checks the evidence against the expected nonce. `verify` is the signature check under the
   leaf key on a message and a raw signature.
   */
  method VerifySpdmEvidence(evidence: bytes, expectedNonce: bytes, verify: (bytes, bytes) -> bool)
      returns (result: Result, signed: bytes, sig: bytes)
    requires |expectedNonce| == NONCE_LEN
    ensures result.Accepted? || result.SignatureInvalid? <==>
            exists request, r :: WellFormedRequest(request, expectedNonce) && WellFormed(r) && evidence == Evidence(request, r)
    ensures result.Accepted? || result.SignatureInvalid? ==> (result.Accepted? <==> verify(signed, sig))
    ensures forall request, r {:trigger Evidence(request, r)} ::
              WellFormedRequest(request, expectedNonce) && WellFormed(r) && evidence == Evidence(request, r) ==>
              signed == request + Unsigned(r) && sig == r.signature
  {
    hide LittleEndian, Unsigned, Evidence, WellFormedRequest, WellFormed, Length2, Length3;
    signed, sig := [], [];
    forall request, r | WellFormedRequest(request, expectedNonce) && WellFormed(r) && evidence == Evidence(request, r)
      ensures Located(evidence, expectedNonce, request, r)
    {
      EvidenceLocated(evidence, expectedNonce, request, r);
    }
    if |evidence| < REQUEST_LEN + 10 {
      return EvidenceTooShort, signed, sig;
    }
    if evidence[0] != VERSION_11 {
      return BadRequestVersion, signed, sig;
    }
    if evidence[1] != GET_MEASUREMENTS {
      return BadRequestCode, signed, sig;
    }
    if evidence[4..36] != expectedNonce {
      return NonceMismatch, signed, sig;
    }
    var resp := evidence[REQUEST_LEN..];
    if resp[0] != VERSION_11 {
      return BadResponseVersion, signed, sig;
    }
    if resp[1] != MEASUREMENTS {
      return BadResponseCode, signed, sig;
    }
    var measRecordLen := Length3(resp, 5);
    var offset := 8 + measRecordLen;
    if offset + 32 > |resp| {
      return NoRoomForNonce, signed, sig;
    }
    offset := offset + 32;
    if offset + 2 > |resp| {
      return NoRoomForOpaqueLength, signed, sig;
    }
    var opaqueLen := Length2(resp, offset);
    offset := offset + 2;
    if offset + opaqueLen > |resp| {
      return NoRoomForOpaque, signed, sig;
    }
    offset := offset + opaqueLen;
    if offset + SIG_LEN > |resp| {
      return NoRoomForSignature, signed, sig;
    }
    sig := resp[offset..offset + SIG_LEN];
    signed := evidence[..REQUEST_LEN + offset];
    ghost var request, r := Dissect(evidence, expectedNonce);
    EvidenceLocated(evidence, expectedNonce, request, r);
    result := if verify(signed, sig) then Accepted else SignatureInvalid;
  }

  /** Every offset the parser computes, read off a well-formed evidence. */
  ghost predicate Located(evidence: bytes, nonce: bytes, request: bytes, r: Response)
    requires WellFormed(r)
  {
    && |nonce| == NONCE_LEN && |evidence| >= REQUEST_LEN
    && evidence[0] == VERSION_11 && evidence[1] == GET_MEASUREMENTS && evidence[4..36] == nonce
    && ResponseLocated(evidence[REQUEST_LEN..], r)
    && evidence[..REQUEST_LEN + |Unsigned(r)|] == request + Unsigned(r)
  }

  ghost predicate ResponseLocated(resp: bytes, r: Response)
    requires WellFormed(r)
  {
    var at := 8 + |r.record| + NONCE_LEN;
    var end := at + 2 + |r.opaqueData|;
    && |resp| >= end + SIG_LEN && |Unsigned(r)| == end
    && resp[0] == VERSION_11 && resp[1] == MEASUREMENTS
    && Length3(resp, 5) == |r.record| && Length2(resp, at) == |r.opaqueData|
    && resp[..end] == Unsigned(r) && resp[end..end + SIG_LEN] == r.signature
  }

  lemma LengthFields(n: nat)
    ensures n < 0x1_0000 ==> Length2(LittleEndian(n, 2), 0) == n
    ensures n < 0x100_0000 ==> Length3(LittleEndian(n, 3), 0) == n
  {
    assert LittleEndian(n / 256 / 256, 1) == [(n / 256 / 256 % 256) as byte];
    assert LittleEndian(n / 256, 1) == [(n / 256 % 256) as byte];
    assert LittleEndian(n / 256, 2) == [(n / 256 % 256) as byte] + LittleEndian(n / 256 / 256, 1);
  }

  lemma Embedded(s: bytes, a: bytes, x: bytes, b: bytes, y: bytes, c: bytes)
    requires a + x <= b && s == b + y + c
    ensures s[|a|..|a| + |x|] == x && s[|b|..|b| + |y|] == y
    ensures forall i :: 0 <= i < |a| ==> s[i] == a[i]
    ensures forall i :: 0 <= i < |x| ==> s[|a| + i] == x[i]
    ensures forall i :: 0 <= i < |y| ==> s[|b| + i] == y[i]
  {
    assert b == (a + x) + b[|a| + |x|..];
  }

  lemma UnsignedFields(r: Response)
    requires WellFormed(r)
    ensures var s := Unsigned(r);
            var at := 8 + |r.record| + NONCE_LEN;
            && |s| == at + 2 + |r.opaqueData|
            && s[0] == VERSION_11 && s[1] == MEASUREMENTS
            && Length3(s, 5) == |r.record| && Length2(s, at) == |r.opaqueData|
  {
    var len3, len2 := LittleEndian(|r.record|, 3), LittleEndian(|r.opaqueData|, 2);
    LengthFields(|r.record|);
    LengthFields(|r.opaqueData|);
    hide LittleEndian;
    var head := [VERSION_11, MEASUREMENTS, r.param1, r.param2, r.blocks];
    Embedded(Unsigned(r), head, len3, head + len3 + r.record + r.nonce, len2, r.opaqueData);
  }

  lemma EvidenceLocated(evidence: bytes, nonce: bytes, request: bytes, r: Response)
    requires WellFormedRequest(request, nonce) && WellFormed(r) && evidence == Evidence(request, r)
    ensures Located(evidence, nonce, request, r)
  {
    UnsignedFields(r);
    hide Unsigned;
    var resp := Unsigned(r) + r.signature + r.trailing;
    assert evidence == request + resp && evidence[REQUEST_LEN..] == resp;
    assert evidence[4..36] == request[4..36];
    assert evidence[..REQUEST_LEN + |Unsigned(r)|] == request + Unsigned(r);
  }

  /** The parts of an evidence whose offsets all fit. */
  lemma Dissect(evidence: bytes, nonce: bytes) returns (request: bytes, r: Response)
    requires |nonce| == NONCE_LEN && |evidence| >= REQUEST_LEN + 10
    requires evidence[0] == VERSION_11 && evidence[1] == GET_MEASUREMENTS && evidence[4..36] == nonce
    requires evidence[REQUEST_LEN] == VERSION_11 && evidence[REQUEST_LEN + 1] == MEASUREMENTS
    requires var resp := evidence[REQUEST_LEN..];
             var at := 8 + Length3(resp, 5) + NONCE_LEN;
             at + 2 <= |resp| && at + 2 + Length2(resp, at) + SIG_LEN <= |resp|
    ensures WellFormedRequest(request, nonce) && WellFormed(r) && evidence == Evidence(request, r)
  {
    hide LittleEndian;
    request := evidence[..REQUEST_LEN];
    var resp := evidence[REQUEST_LEN..];
    var m := Length3(resp, 5);
    var at := 8 + m + NONCE_LEN;
    var k := Length2(resp, at);
    var end := at + 2 + k;
    r := Response(resp[2], resp[3], resp[4], resp[8..8 + m], resp[8 + m..at],
                  resp[at + 2..end], resp[end..end + SIG_LEN], resp[end + SIG_LEN..]);
    FieldBytes(resp, m, at, k);
    Join(resp, 0, 5, 8);
    Join(resp, 0, 8, 8 + m);
    Join(resp, 0, 8 + m, at);
    Join(resp, 0, at, at + 2);
    Join(resp, 0, at + 2, end);
    Join(resp, 0, end, end + SIG_LEN);
    Join(resp, 0, end + SIG_LEN, |resp|);
    assert Unsigned(r) == resp[0..end];
    assert evidence == request + resp && resp == resp[0..|resp|];
    assert request + resp == request + Unsigned(r) + r.signature + r.trailing;
  }

  lemma Join(s: bytes, a: nat, b: nat, c: nat)
    requires a <= b <= c <= |s|
    ensures s[a..c] == s[a..b] + s[b..c]
  {
  }

  lemma FieldBytes(resp: bytes, m: nat, at: nat, k: nat)
    requires 8 <= at && at + 2 <= |resp| && m == Length3(resp, 5) && k == Length2(resp, at)
    ensures resp[5..8] == LittleEndian(m, 3) && resp[at..at + 2] == LittleEndian(k, 2)
    ensures resp[0..5] == [resp[0], resp[1], resp[2], resp[3], resp[4]]
  {
    LowByte(resp[7], 0, 0);
    LowByte(resp[6], resp[7] as nat, 1);
    LowByte(resp[5], resp[6] as nat + 256 * resp[7] as nat, 2);
    LowByte(resp[at + 1], 0, 0);
    LowByte(resp[at], resp[at + 1] as nat, 1);
    hide LittleEndian;
  }

  lemma LowByte(b: byte, q: nat, w: nat)
    ensures LittleEndian(b as nat + 256 * q, w + 1) == [b] + LittleEndian(q, w)
  {
    assert (b as nat + 256 * q) % 256 == b as nat && (b as nat + 256 * q) / 256 == q;
  }

  /** One byte string is the evidence of at most one request and response. */
  lemma EvidenceUnambiguous(nonce: bytes, request: bytes, r: Response, request': bytes, r': Response)
    requires WellFormedRequest(request, nonce) && WellFormed(r)
    requires WellFormedRequest(request', nonce) && WellFormed(r')
    requires Evidence(request, r) == Evidence(request', r')
    ensures request == request' && r == r'
  {
    var evidence := Evidence(request, r);
    EvidenceLocated(evidence, nonce, request, r);
    EvidenceLocated(evidence, nonce, request', r');
    assert request == evidence[..REQUEST_LEN] == request';
    assert Unsigned(r) == (request + Unsigned(r))[REQUEST_LEN..];
    assert Unsigned(r') == (request' + Unsigned(r'))[REQUEST_LEN..];
    var end := REQUEST_LEN + |Unsigned(r)|;
    assert r.trailing == evidence[end + SIG_LEN..] == r'.trailing;
    UnsignedInjective(r, r');
  }

  /** The signed part determines every field in it, because each variable one is preceded by its length. */
  lemma UnsignedInjective(r: Response, r': Response)
    requires WellFormed(r) && WellFormed(r') && Unsigned(r) == Unsigned(r')
    ensures r.(signature := r'.signature, trailing := r'.trailing) == r'
  {
    hide LittleEndian;
    var head, head' := [VERSION_11, MEASUREMENTS, r.param1, r.param2, r.blocks], [VERSION_11, MEASUREMENTS, r'.param1, r'.param2, r'.blocks];
    var size, size' := LittleEndian(|r.record|, 3), LittleEndian(|r'.record|, 3);
    var back, back' := AfterRecord(r), AfterRecord(r');
    assert Unsigned(r) == head + (size + (r.record + back)) && Unsigned(r') == head' + (size' + (r'.record + back'));
    SameParts(head, size + (r.record + back), head', size' + (r'.record + back'));
    assert r.param1 == head[2] == head'[2] && r.param2 == head[3] == head'[3] && r.blocks == head[4] == head'[4];
    SameParts(size, r.record + back, size', r'.record + back');
    LittleEndianInjective(|r.record|, |r'.record|, 3);
    SameParts(r.record, back, r'.record, back');
    SameParts(r.nonce, LittleEndian(|r.opaqueData|, 2) + r.opaqueData, r'.nonce, LittleEndian(|r'.opaqueData|, 2) + r'.opaqueData);
    SameParts(LittleEndian(|r.opaqueData|, 2), r.opaqueData, LittleEndian(|r'.opaqueData|, 2), r'.opaqueData);
  }

  function AfterRecord(r: Response): bytes {
    r.nonce + (LittleEndian(|r.opaqueData|, 2) + r.opaqueData)
  }

  lemma SameParts(a: bytes, b: bytes, a': bytes, b': bytes)
    requires |a| == |a'| && a + b == a' + b'
    ensures a == a' && b == b'
  {
    assert a == (a + b)[..|a|] && a' == (a' + b')[..|a|];
    assert b == (a + b)[|a|..] && b' == (a' + b')[|a|..];
  }

  lemma {:induction false} LittleEndianInjective(m: nat, n: nat, w: nat)
    requires m < Pow256(w) && n < Pow256(w) && LittleEndian(m, w) == LittleEndian(n, w)
    ensures m == n
  {
    if w > 0 {
      var s, t := LittleEndian(m, w), LittleEndian(n, w);
      assert s[0] == t[0] && s[1..] == LittleEndian(m / 256, w - 1) && t[1..] == LittleEndian(n / 256, w - 1);
      LittleEndianInjective(m / 256, n / 256, w - 1);
    }
  }
}
