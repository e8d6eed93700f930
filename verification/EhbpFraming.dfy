/**
 The EHBP wire format: a body is a list of chunks, each sealed under its own nonce and sent as
 a four-byte big-endian length followed by the ciphertext.

 The AEAD is a parameter. Its laws are hypotheses of the lemmas that need them.
 */
module EhbpFraming {
  import opened Bytes

  // Largest ciphertext length a length prefix may announce (16 MiB).
  const MAX_CHUNK_SIZE: nat := 16 * 1024 * 1024
  // Plaintext bytes sealed per request chunk (8 KiB).
  const CHUNK_SIZE: nat := 8192
  // The response counter stops here, at 2^31 - 1.
  const MAX_CHUNK_IDX: nat := 0x7fff_ffff
  const NONCE_SIZE: nat := 12
  const TAG_SIZE: nat := 16

  type Nonce = s: bytes | |s| == NONCE_SIZE witness seq(NONCE_SIZE, _ => 0)

  /** An AEAD with its key already chosen. `open` is None when authentication fails. */
  datatype Aead = Aead(seal: (Nonce, bytes) -> bytes, open: (Nonce, bytes) -> Option<bytes>)

  /** Sealing adds a tag and opening undoes sealing. */
  ghost predicate Lawful(a: Aead) {
    forall n: Nonce, p: bytes :: |a.seal(n, p)| == |p| + TAG_SIZE && a.open(n, a.seal(n, p)) == Some(p)
  }

  // ---------------------------------------------------------------- nonces

  /** The sender's nonce for message `i`: ComputeNonce of section 5.2 of RFC 9180. */
  function SenderNonce(base: Nonce, i: nat): Nonce {
    XorBytes(base, BigEndian(i, NONCE_SIZE))
  }

  /** The response reader's nonce: the base with a 64-bit counter folded into bytes 4 to 11. */
  function ReaderNonce(base: Nonce, i: nat): Nonce {
    base[..4] + XorBytes(base[4..], BigEndian(i, 8))
  }

  /** Byte `k` of the nonce is the base's, exclusive-ored with digit `k` of the counter in twelve bytes. */
  ghost predicate IsNonce(base: Nonce, i: nat, n: Nonce) {
    forall k: nat :: k < NONCE_SIZE ==> IsXor(base[k] as nat, i / Pow256(NONCE_SIZE - 1 - k) % 256, n[k] as nat)
  }

  lemma SenderNonceBits(base: Nonce, i: nat)
    ensures IsNonce(base, i, SenderNonce(base, i))
  {
    hide IsXor;
    forall k: nat | k < NONCE_SIZE
      ensures IsXor(base[k] as nat, i / Pow256(NONCE_SIZE - 1 - k) % 256, SenderNonce(base, i)[k] as nat)
    {
      BigEndianDigit(i, NONCE_SIZE, k);
      XorIsXor(base[k], BigEndian(i, NONCE_SIZE)[k]);
    }
  }

  /** The first four bytes are the base's; the others differ from it in the bits of a counter in eight bytes. */
  ghost predicate IsReaderNonce(base: Nonce, i: nat, n: Nonce) {
    && n[..4] == base[..4]
    && forall k: nat :: 4 <= k < NONCE_SIZE ==> IsXor(base[k] as nat, i / Pow256(NONCE_SIZE - 1 - k) % 256, n[k] as nat)
  }

  lemma ReaderNonceBits(base: Nonce, i: nat)
    ensures IsReaderNonce(base, i, ReaderNonce(base, i))
  {
    hide IsXor;
    forall k: nat | 4 <= k < NONCE_SIZE
      ensures IsXor(base[k] as nat, i / Pow256(NONCE_SIZE - 1 - k) % 256, ReaderNonce(base, i)[k] as nat)
    {
      BigEndianDigit(i, 8, k - 4);
      XorIsXor(base[k], BigEndian(i, 8)[k - 4]);
    }
  }

  lemma CounterRange(i: nat)
    requires i < 0x1_0000_0000_0000_0000
    ensures i < Pow256(8)
  {
    assert Pow256(4) == 0x1_0000_0000 by {
      assert Pow256(2) == 0x1_0000;
    }
    assert Pow256(6) == 0x1_0000 * Pow256(4);
    assert Pow256(8) == 0x1_0000 * Pow256(6);
  }

  /** Both ends derive the same nonce for every index that fits the 64-bit counter. */
  lemma NoncesAgree(base: Nonce, i: nat)
    requires i < 0x1_0000_0000_0000_0000
    ensures ReaderNonce(base, i) == SenderNonce(base, i)
    ensures IsNonce(base, i, ReaderNonce(base, i))
  {
    hide IsNonce;
    SenderNonceBits(base, i);
    CounterRange(i);
    BigEndianWiden(i, 8, 4);
    var zeros: bytes := seq(4, _ => 0);
    XorBytesSplit(base[..4], base[4..], zeros, BigEndian(i, 8));
    assert base == base[..4] + base[4..];
    XorBytesZero(base[..4]);
  }

  /** Distinct message numbers get distinct nonces. */
  lemma NoncesDistinct(base: Nonce, i: nat, j: nat)
    requires i < Pow256(NONCE_SIZE) && j < Pow256(NONCE_SIZE)
    requires SenderNonce(base, i) == SenderNonce(base, j)
    ensures i == j
  {
    XorBytesInjective(base, BigEndian(i, NONCE_SIZE), BigEndian(j, NONCE_SIZE));
    BigEndianRoundTrip(i, NONCE_SIZE);
    BigEndianRoundTrip(j, NONCE_SIZE);
  }

  // ---------------------------------------------------------------- frames

  function Frame(a: Aead, base: Nonce, i: nat, plain: bytes): bytes {
    var c := a.seal(SenderNonce(base, i), plain);
    BigEndian(|c|, 4) + c
  }

  /** On the wire: four bytes of length, most significant first, and the sealed chunk. */
  lemma FrameLayout(a: Aead, base: Nonce, i: nat, plain: bytes)
    requires Lawful(a)
    ensures var f, n := Frame(a, base, i, plain), |plain| + TAG_SIZE;
            && |f| == 4 + n && f[4..] == a.seal(SenderNonce(base, i), plain)
            && forall k: nat :: k < 4 ==> f[k] as nat == n / Pow256(3 - k) % 256
  {
    var c := a.seal(SenderNonce(base, i), plain);
    assert Frame(a, base, i, plain)[4..] == c;
    forall k: nat | k < 4
      ensures Frame(a, base, i, plain)[k] as nat == |c| / Pow256(3 - k) % 256
    {
      BigEndianDigit(|c|, 4, k);
    }
  }

  /** The wire form of `chunks` when the first of them is message number `from`. */
  function Encode(a: Aead, base: Nonce, chunks: seq<bytes>, from: nat): bytes {
    if chunks == [] then [] else Frame(a, base, from, chunks[0]) + Encode(a, base, chunks[1..], from + 1)
  }

  lemma {:induction false} EncodeAppend(a: Aead, base: Nonce, xs: seq<bytes>, ys: seq<bytes>, from: nat)
    ensures Encode(a, base, xs + ys, from) == Encode(a, base, xs, from) + Encode(a, base, ys, from + |xs|)
  {
    if xs == [] {
      assert xs + ys == ys;
    } else {
      assert (xs + ys)[0] == xs[0] && (xs + ys)[1..] == xs[1..] + ys;
      EncodeAppend(a, base, xs[1..], ys, from + 1);
    }
  }

  lemma EncodeSnoc(a: Aead, base: Nonce, xs: seq<bytes>, y: bytes, from: nat)
    ensures Encode(a, base, xs + [y], from) == Encode(a, base, xs, from) + Frame(a, base, from + |xs|, y)
  {
    EncodeAppend(a, base, xs, [y], from);
    var tail: seq<bytes> := [y];
    assert tail[1..] == [];
    assert Encode(a, base, tail, from + |xs|) == Frame(a, base, from + |xs|, y) + Encode(a, base, [], from + |xs| + 1);
  }

  /** Framing adds a length prefix and a tag to every chunk. */
  lemma {:induction false} EncodeLength(a: Aead, base: Nonce, chunks: seq<bytes>, from: nat)
    requires Lawful(a)
    ensures |Encode(a, base, chunks, from)| == |Concat(chunks)| + (4 + TAG_SIZE) * |chunks|
  {
    if chunks != [] {
      EncodeLength(a, base, chunks[1..], from + 1);
    }
  }

  /** How reading a wire ends. */
  datatype End = CleanEof | Overflow | TooLarge | Short | AuthFailed

  /** The chunks a reader opens, in order, and how it stops. */
  datatype Run = Run(chunks: seq<bytes>, end: End)

  /** What one step of the reader makes of the wire in front of it. */
  datatype Step = Stop(end: End) | Chunk(plain: bytes, size: nat)

  function ReadStep(a: Aead, base: Nonce, wire: bytes, idx: nat): (s: Step)
    ensures s.Chunk? ==> 4 <= s.size <= |wire|
  {
    if idx >= MAX_CHUNK_IDX then Stop(Overflow)
    else if |wire| < 4 then Stop(CleanEof)
    else
      var len := FromBigEndian(wire[..4]);
      if len > MAX_CHUNK_SIZE then Stop(TooLarge)
      else if |wire| < 4 + len then Stop(Short)
      else
        match a.open(ReaderNonce(base, idx), wire[4..4 + len])
        case None => Stop(AuthFailed)
        case Some(p) => Chunk(p, 4 + len)
  }

  /** The whole run of a reader over a wire that ends in EOF, starting at chunk number `idx`. */
  function Decode(a: Aead, base: Nonce, wire: bytes, idx: nat): Run
    decreases |wire|
  {
    match ReadStep(a, base, wire, idx)
    case Stop(end) => Run([], end)
    case Chunk(p, size) =>
      var rest := Decode(a, base, wire[size..], idx + 1);
      Run([p] + rest.chunks, rest.end)
  }

  /** The number that four bytes announce. */
  lemma FourBytes(s: bytes)
    requires |s| == 4
    ensures FromBigEndian(s) == 0x100_0000 * s[0] as nat + 0x1_0000 * s[1] as nat + 0x100 * s[2] as nat + s[3] as nat
  {
    assert s[..3][..2] == s[..2] && s[..2][..1] == s[..1] && s[..1][..0] == [];
    assert FromBigEndian(s[..1]) == s[0] as nat;
    assert FromBigEndian(s[..2]) == 256 * FromBigEndian(s[..1]) + s[1] as nat;
    assert FromBigEndian(s[..3]) == 256 * FromBigEndian(s[..2]) + s[2] as nat;
  }

  /** What the reader makes of a frame: the length it announces decides, and then the AEAD under the frame's own nonce. */
  lemma StepIs(a: Aead, base: Nonce, wire: bytes, idx: nat)
    requires idx < 0x7fff_ffff && |wire| >= 4
    ensures var len := 0x100_0000 * wire[0] as nat + 0x1_0000 * wire[1] as nat + 0x100 * wire[2] as nat + wire[3] as nat;
            var step := ReadStep(a, base, wire, idx);
            if len > 0x100_0000 then step == Stop(TooLarge)
            else if |wire| < 4 + len then step == Stop(Short)
            else exists n: Nonce ::
              && IsReaderNonce(base, idx, n)
              && step == match a.open(n, wire[4..4 + len]) case None => Stop(AuthFailed) case Some(p) => Chunk(p, 4 + len)
  {
    hide IsReaderNonce, FromBigEndian;
    FourBytes(wire[..4]);
    ReaderNonceBits(base, idx);
  }

  // ---------------------------------------------------------------- round trip

  ghost predicate SmallChunks(chunks: seq<bytes>) {
    forall c <- chunks :: |c| <= CHUNK_SIZE
  }

  /** Read in front of a whole frame, the reader recovers exactly that frame's chunk. */
  lemma FrameStep(a: Aead, base: Nonce, plain: bytes, idx: nat, rest: bytes)
    requires Lawful(a) && |plain| <= CHUNK_SIZE && idx < MAX_CHUNK_IDX
    ensures var f := Frame(a, base, idx, plain);
            ReadStep(a, base, f + rest, idx) == Chunk(plain, |f|)
  {
    var n := SenderNonce(base, idx);
    var c := a.seal(n, plain);
    var wire := Frame(a, base, idx, plain) + rest;
    NoncesAgree(base, idx);
    assert Pow256(4) == 0x1_0000 * Pow256(2);
    BigEndianRoundTrip(|c|, 4);
    assert wire[..4] == BigEndian(|c|, 4);
    assert wire[4..4 + |c|] == c;
  }

  lemma DecodeStop(a: Aead, base: Nonce, wire: bytes, idx: nat)
    requires ReadStep(a, base, wire, idx).Stop?
    ensures Decode(a, base, wire, idx) == Run([], ReadStep(a, base, wire, idx).end)
  {
  }

  lemma DecodeFrame(a: Aead, base: Nonce, plain: bytes, idx: nat, rest: bytes)
    requires Lawful(a) && |plain| <= CHUNK_SIZE && idx < MAX_CHUNK_IDX
    ensures var r := Decode(a, base, rest, idx + 1);
            Decode(a, base, Frame(a, base, idx, plain) + rest, idx) == Run([plain] + r.chunks, r.end)
  {
    var f := Frame(a, base, idx, plain);
    FrameStep(a, base, plain, idx, rest);
    assert (f + rest)[|f|..] == rest;
  }

  /**
   Sealing fewer than 2^31 - 1 chunks and reading the result back: every chunk returns, in
   order, and then EOF.
   */
  lemma {:induction false} DecodeEncode(a: Aead, base: Nonce, chunks: seq<bytes>, from: nat)
    requires Lawful(a) && SmallChunks(chunks) && from + |chunks| < MAX_CHUNK_IDX
    ensures Decode(a, base, Encode(a, base, chunks, from), from) == Run(chunks, CleanEof)
  {
    hide Frame, Decode, FromBigEndian, Lawful;
    if chunks == [] {
      DecodeStop(a, base, [], from);
    } else {
      var rest := Encode(a, base, chunks[1..], from + 1);
      DecodeEncode(a, base, chunks[1..], from + 1);
      DecodeFrame(a, base, chunks[0], from, rest);
      assert Encode(a, base, chunks, from) == Frame(a, base, from, chunks[0]) + rest;
    }
  }

  /** With 2^31 - 1 chunks or more the reader stops at that count with an overflow. */
  lemma {:induction false} DecodeEncodeOverflow(a: Aead, base: Nonce, chunks: seq<bytes>, from: nat)
    requires Lawful(a) && SmallChunks(chunks) && from <= MAX_CHUNK_IDX <= from + |chunks|
    ensures Decode(a, base, Encode(a, base, chunks, from), from) == Run(chunks[..MAX_CHUNK_IDX - from], Overflow)
  {
    hide Frame, FromBigEndian, Lawful;
    if from < MAX_CHUNK_IDX {
      var rest := Encode(a, base, chunks[1..], from + 1);
      assert Encode(a, base, chunks, from) == Frame(a, base, from, chunks[0]) + rest;
      hide Decode, Encode;
      DecodeEncodeOverflow(a, base, chunks[1..], from + 1);
      DecodeFrame(a, base, chunks[0], from, rest);
      TakeFirst(chunks, MAX_CHUNK_IDX - from);
    }
  }

  lemma TakeFirst(chunks: seq<bytes>, n: nat)
    requires 0 < n <= |chunks|
    ensures chunks[..n] == [chunks[0]] + chunks[1..][..n - 1]
  {
  }

  /** The round trip delivers everything and then EOF for exactly the bodies of fewer than 2^31 - 1 chunks. */
  lemma RoundTripIff(a: Aead, base: Nonce, chunks: seq<bytes>)
    requires Lawful(a) && SmallChunks(chunks)
    ensures Decode(a, base, Encode(a, base, chunks, 0), 0) == Run(chunks, CleanEof) <==> |chunks| < MAX_CHUNK_IDX
  {
    if |chunks| < MAX_CHUNK_IDX {
      DecodeEncode(a, base, chunks, 0);
    } else {
      DecodeEncodeOverflow(a, base, chunks, 0);
    }
  }

  // ---------------------------------------------------------------- truncation

  /** The number of whole frames in the first `k` bytes of the wire. */
  function WholeFrames(a: Aead, base: Nonce, chunks: seq<bytes>, from: nat, k: nat): (j: nat)
    ensures j <= |chunks|
  {
    if chunks == [] then 0
    else
      var f := Frame(a, base, from, chunks[0]);
      if k < |f| then 0 else 1 + WholeFrames(a, base, chunks[1..], from + 1, k - |f|)
  }

  lemma {:induction false} WholeFramesFit(a: Aead, base: Nonce, chunks: seq<bytes>, from: nat, k: nat)
    requires k <= |Encode(a, base, chunks, from)|
    ensures |Encode(a, base, chunks[..WholeFrames(a, base, chunks, from, k)], from)| <= k
  {
    if chunks != [] {
      var f := Frame(a, base, from, chunks[0]);
      if k >= |f| {
        WholeFramesFit(a, base, chunks[1..], from + 1, k - |f|);
        var j := WholeFrames(a, base, chunks, from, k);
        assert chunks[..j][1..] == chunks[1..][..j - 1];
      }
    }
  }

  /**
   Cutting the wire anywhere leaves exactly the chunks whose frames survive whole. The cut is
   reported as an ordinary EOF when fewer than four bytes of the next frame are left, and as an
   error otherwise.
   */
  lemma DecodeTruncated(a: Aead, base: Nonce, chunks: seq<bytes>, from: nat, k: nat)
    requires Lawful(a) && SmallChunks(chunks) && from + |chunks| < MAX_CHUNK_IDX
    requires k <= |Encode(a, base, chunks, from)|
    ensures var j := WholeFrames(a, base, chunks, from, k);
            var left := k - |Encode(a, base, chunks[..j], from)|;
            0 <= left &&
            Decode(a, base, Encode(a, base, chunks, from)[..k], from) ==
            Run(chunks[..j], if left < 4 then CleanEof else Short)
  {
    hide Encode, Decode, WholeFrames;
    WholeFramesFit(a, base, chunks, from, k);
    CutRun(a, base, chunks, from, k);
  }

  lemma {:induction false} CutRun(a: Aead, base: Nonce, chunks: seq<bytes>, from: nat, k: nat)
    requires Lawful(a) && SmallChunks(chunks) && from + |chunks| < MAX_CHUNK_IDX
    requires k <= |Encode(a, base, chunks, from)|
    ensures var j := WholeFrames(a, base, chunks, from, k);
            var left := k - |Encode(a, base, chunks[..j], from)|;
            Decode(a, base, Encode(a, base, chunks, from)[..k], from) ==
            Run(chunks[..j], if left < 4 then CleanEof else Short)
  {
    hide Frame, Decode, FromBigEndian;
    var wire := Encode(a, base, chunks, from)[..k];
    if chunks == [] {
      DecodeStop(a, base, [], from);
    } else {
      var f, rest := Frame(a, base, from, chunks[0]), Encode(a, base, chunks[1..], from + 1);
      if k < |f| {
        assert wire == f[..k];
        CutFrameStep(a, base, chunks[0], from, wire);
        DecodeStop(a, base, wire, from);
      } else {
        var j := WholeFrames(a, base, chunks, from, k);
        CutRun(a, base, chunks[1..], from + 1, k - |f|);
        EncodePrefix(a, base, chunks, from, j);
        hide Encode, WholeFrames;
        assert wire == f + rest[..k - |f|];
        DecodeFrame(a, base, chunks[0], from, rest[..k - |f|]);
      }
    }
  }

  lemma EncodePrefix(a: Aead, base: Nonce, chunks: seq<bytes>, from: nat, j: nat)
    requires 0 < j <= |chunks|
    ensures chunks[..j] == [chunks[0]] + chunks[1..][..j - 1]
    ensures Encode(a, base, chunks[..j], from) == Frame(a, base, from, chunks[0]) + Encode(a, base, chunks[1..][..j - 1], from + 1)
  {
    assert chunks[..j][1..] == chunks[1..][..j - 1];
  }

  lemma CutFrameStep(a: Aead, base: Nonce, plain: bytes, idx: nat, cut: bytes)
    requires Lawful(a) && |plain| <= CHUNK_SIZE && idx < MAX_CHUNK_IDX
    requires var f := Frame(a, base, idx, plain); |cut| < |f| && cut == f[..|cut|]
    ensures ReadStep(a, base, cut, idx) == Stop(if |cut| < 4 then CleanEof else Short)
  {
    if |cut| >= 4 {
      var c := a.seal(SenderNonce(base, idx), plain);
      assert Pow256(4) == 0x1_0000 * Pow256(2);
      BigEndianRoundTrip(|c|, 4);
      assert cut[..4] == BigEndian(|c|, 4);
    }
  }

  // ---------------------------------------------------------------- prefix safety

  /** Nothing opens except a ciphertext that was sent, at the nonce it was sent under. */
  ghost predicate OpensOnlySent(a: Aead, base: Nonce, sent: seq<bytes>) {
    forall n: Nonce, c: bytes :: a.open(n, c).Some? ==>
      exists i :: 0 <= i < |sent| && n == SenderNonce(base, i) && c == a.seal(n, sent[i]) && a.open(n, c).value == sent[i]
  }

  /** The chunk opened at index `idx` is the one sent at that index, on any wire. */
  lemma OpenedIsSent(a: Aead, base: Nonce, sent: seq<bytes>, idx: nat, c: bytes)
    requires OpensOnlySent(a, base, sent) && |sent| <= Pow256(NONCE_SIZE)
    requires idx < MAX_CHUNK_IDX && a.open(ReaderNonce(base, idx), c).Some?
    ensures idx < |sent| && a.open(ReaderNonce(base, idx), c).value == sent[idx]
  {
    NoncesAgree(base, idx);
    var n := SenderNonce(base, idx);
    var i :| 0 <= i < |sent| && n == SenderNonce(base, i) && a.open(n, c).value == sent[i];
    CounterRange(idx);
    assert Pow256(NONCE_SIZE) == 0x1_0000 * Pow256(10) && Pow256(10) == 0x1_0000 * Pow256(8);
    NoncesDistinct(base, idx, i);
  }

  /** On any wire whatsoever, the chunks opened are a prefix of the chunks sent. */
  lemma {:induction false} PrefixSafety(a: Aead, base: Nonce, sent: seq<bytes>, wire: bytes, idx: nat)
    requires OpensOnlySent(a, base, sent) && |sent| <= Pow256(NONCE_SIZE)
    requires idx <= |sent|
    ensures Decode(a, base, wire, idx).chunks <= sent[idx..]
    decreases |wire|
  {
    hide OpensOnlySent, FromBigEndian, ReaderNonce, Pow256;
    match ReadStep(a, base, wire, idx) {
      case Stop(_) =>
      case Chunk(p, size) =>
        OpenedIsSent(a, base, sent, idx, wire[4..size]);
        PrefixSafety(a, base, sent, wire[size..], idx + 1);
        assert sent[idx..] == [sent[idx]] + sent[idx + 1..];
    }
  }

  /** The hypothesis of prefix safety can be met for every list of sent chunks. */
  lemma OpensOnlySentSatisfiable(base: Nonce, sent: seq<bytes>)
    ensures exists a: Aead :: OpensOnlySent(a, base, sent)
                              && forall i :: 0 <= i < |sent| ==> |a.seal(SenderNonce(base, i), sent[i])| == |sent[i]| + TAG_SIZE
  {
    var tag := seq(TAG_SIZE, _ => 0 as byte);
    var seal: (Nonce, bytes) -> bytes := (n, p) => p + tag;
    var open: (Nonce, bytes) -> Option<bytes> := (n, c) =>
      if exists i :: 0 <= i < |sent| && n == SenderNonce(base, i) && c == sent[i] + tag
      then Some(c[..if |c| >= TAG_SIZE then |c| - TAG_SIZE else 0]) else None;
    var a := Aead(seal, open);
    forall n: Nonce, c: bytes | a.open(n, c).Some?
      ensures exists i :: 0 <= i < |sent| && n == SenderNonce(base, i) && c == a.seal(n, sent[i]) && a.open(n, c).value == sent[i]
    {
      var i :| 0 <= i < |sent| && n == SenderNonce(base, i) && c == sent[i] + tag;
      assert c[..|c| - TAG_SIZE] == sent[i];
    }
  }
}
