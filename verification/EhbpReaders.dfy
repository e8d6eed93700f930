/**
 The two streaming ends of EHBP: the reader that seals a request body into frames, and the
 reader that opens response frames. Both hold back what the caller's buffer cannot take, and
 both sit on a source that may split or delay its bytes in any way.
 */
module EhbpReaders {
  import opened Bytes
  import opened EhbpFraming

  datatype Err =
    | NoErr
    | Eof
    | UnexpectedEof
    | SourceFailed
    | SealLimit
    | CounterOverflow
    | ChunkTooLarge
    | ShortChunk
    | AuthenticationFailed

  /** One result of an underlying read: some bytes and an error reported with them. */
  datatype Event = Event(data: bytes, err: Err)

  function Flatten(script: seq<Event>): bytes {
    if script == [] then [] else script[0].data + Flatten(script[1..])
  }

  /** No transport error, and end of file only with the last bytes. */
  ghost predicate CleanScript(script: seq<Event>) {
    forall i :: 0 <= i < |script| ==>
      script[i].err == NoErr || (script[i].err == Eof && i == |script| - 1)
  }

  /** What reading at most `max` bytes gives, and what is left to read. */
  function TakeRead(script: seq<Event>, max: nat): (bytes, Err, seq<Event>)
    requires max > 0
  {
    if script == [] then ([], Eof, [])
    else
      var e := script[0];
      if |e.data| <= max then (e.data, e.err, script[1..])
      else (e.data[..max], NoErr, script[0 := Event(e.data[max..], e.err)])
  }

  /** How many chunks a body with this future is sealed in: one for every read that is not an empty end. */
  function FrameCount(script: seq<Event>): nat
    decreases |script|, if script == [] then 0 else |script[0].data|
  {
    if script == [] then 0
    else
      var e := script[0];
      if |e.data| > CHUNK_SIZE then 1 + FrameCount(script[0 := Event(e.data[CHUNK_SIZE..], e.err)])
      else if e.data == [] && e.err != NoErr then 0
      else 1 + if e.err == Eof then 0 else FrameCount(script[1..])
  }

  lemma FrameCountStep(script: seq<Event>)
    ensures var (got, err, rest) := TakeRead(script, CHUNK_SIZE);
            FrameCount(script) == if got == [] && err != NoErr then 0 else 1 + if err == Eof then 0 else FrameCount(rest)
  {
  }

  /** An underlying reader: its future is a script of read results, then end of file for ever. */
  class Source {
    var script: seq<Event>

    constructor (script: seq<Event>)
      ensures this.script == script
    {
      this.script := script;
    }

    ghost function Remaining(): bytes
      reads this
    {
      Flatten(script)
    }

    ghost predicate Clean()
      reads this
    {
      CleanScript(script)
    }

    method Read(max: nat) returns (got: bytes, err: Err)
      requires max > 0
      modifies this
      ensures (got, err, script) == TakeRead(old(script), max)
      ensures |got| <= max && got + Remaining() == old(Remaining())
      ensures old(Clean()) ==> Clean() && (err == NoErr || (err == Eof && Remaining() == []))
      ensures |script| < old(|script|) || (|script| == old(|script|) && (got != [] || err == Eof))
    {
      if script == [] {
        return [], Eof;
      }
      var e := script[0];
      if |e.data| <= max {
        script := script[1..];
        return e.data, e.err;
      }
      got, err := e.data[..max], NoErr;
      script := script[0 := Event(e.data[max..], e.err)];
      assert script[1..] == old(script)[1..];
      assert e.data == got + script[0].data;
    }
  }

  /** Reads exactly `n` bytes unless the source ends or fails first (io.ReadFull). */
  method ReadFull(src: Source, n: nat) returns (got: bytes, err: Err)
    modifies src
    ensures |got| <= n && got + src.Remaining() == old(src.Remaining())
    ensures err == NoErr <==> |got| == n
    ensures old(src.Clean()) ==>
              && src.Clean()
              && (err != NoErr ==> src.Remaining() == [] && err == if got == [] then Eof else UnexpectedEof)
  {
    hide Flatten, CleanScript;
    got, err := [], NoErr;
    while |got| < n && err == NoErr
      invariant |got| <= n && got + src.Remaining() == old(src.Remaining())
      invariant old(src.Clean()) ==> src.Clean() && (err == NoErr || (err == Eof && src.Remaining() == []))
      decreases n - |got|, |src.script|, if err == NoErr then 1 else 0
    {
      var piece;
      ghost var before := got;
      piece, err := src.Read(n - |got|);
      got := got + piece;
      assert got + src.Remaining() == before + (piece + src.Remaining());
    }
    if |got| == n {
      err := NoErr;
    } else if got != [] && err == Eof {
      err := UnexpectedEof;
    }
  }

  /** Copies as much of `src` as fits to the front of `p` (the built-in copy). */
  method Copy(p: array<byte>, src: bytes) returns (n: nat)
    modifies p
    ensures n == if |src| < p.Length then |src| else p.Length
    ensures p[..n] == src[..n] && p[n..] == old(p[n..])
  {
    n := if |src| < p.Length then |src| else p.Length;
    for i := 0 to n
      invariant p[..i] == src[..i] && p[i..] == old(p[i..])
    {
      p[i] := src[i];
      assert p[..i + 1] == p[..i] + [p[i]] && src[..i + 1] == src[..i] + [src[i]];
      assert p[i + 1..] == old(p[i..])[1..] == old(p[i + 1..]);
    }
  }

  /** An HPKE sender context: each Seal uses the next message number. */
  class Sender {
    const aead: Aead
    const base: Nonce
    var seqNo: nat

    constructor (aead: Aead, base: Nonce)
      ensures this.aead == aead && this.base == base && seqNo == 0
    {
      this.aead, this.base, seqNo := aead, base, 0;
    }

    // Section 5.2 of RFC 9180: the message limit is 2^(8*Nn) - 1.
    method Seal(plain: bytes) returns (ok: bool, ciphertext: bytes)
      modifies this
      ensures ok <==> old(seqNo) < Pow256(NONCE_SIZE) - 1
      ensures ok ==> ciphertext == aead.seal(SenderNonce(base, old(seqNo)), plain) && seqNo == old(seqNo) + 1
      ensures !ok ==> seqNo == old(seqNo)
    {
      if seqNo >= Pow256(NONCE_SIZE) - 1 {
        return false, [];
      }
      ok, ciphertext := true, aead.seal(SenderNonce(base, seqNo), plain);
      seqNo := seqNo + 1;
    }
  }

  lemma SmallSnoc(chunks: seq<bytes>, c: bytes)
    requires SmallChunks(chunks) && |c| <= CHUNK_SIZE
    ensures SmallChunks(chunks + [c])
  {
  }

  /** Seals a request body into frames as it is read. */
  class RequestReader {
    const body: Source
    const sender: Sender
    var pending: bytes
    var done: bool

    ghost const input: bytes       // everything the body held at the start
    ghost const start: nat         // message number of the first frame
    ghost const due: nat           // how many chunks the body makes
    ghost const clean: bool        // the body source has no transport error
    ghost var chunks: seq<bytes>   // plaintext chunks sealed so far
    ghost var emitted: bytes       // wire bytes handed to callers so far
    ghost var limited: bool        // the sender refused a chunk

    ghost predicate Valid()
      reads this, body, sender
    {
      && sender.seqNo == start + |chunks|
      && SmallChunks(chunks)
      && emitted + pending == Encode(sender.aead, sender.base, chunks, start)
      && (limited ==> done)
      && Concat(chunks) <= input && |chunks| <= due
      && (!limited ==> Concat(chunks) + body.Remaining() == input)
      && (!limited ==> |chunks| + (if done then 0 else FrameCount(body.script)) == due)
      && (limited ==> |chunks| < due && start + |chunks| >= Pow256(NONCE_SIZE) - 1)
      && (clean ==> body.Clean() && (done && !limited ==> body.Remaining() == []))
    }

    constructor (body: Source, sender: Sender)
      ensures Valid() && this.body == body && this.sender == sender
      ensures input == body.Remaining() && due == FrameCount(body.script) && start == sender.seqNo && clean == body.Clean()
      ensures chunks == [] && emitted == [] && !done && !limited
    {
      this.body, this.sender, pending, done := body, sender, [], false;
      input, due, start, clean := body.Remaining(), FrameCount(body.script), sender.seqNo, body.Clean();
      chunks, emitted, limited := [], [], false;
    }

    /**
     Gives out as much as the buffer takes of the pending frame, sealing one first if none is
     pending. A call without an error fills the buffer or empties the frame, and a nonempty buffer
     always receives something.
     */
    method Read(p: array<byte>) returns (n: nat, err: Err)
      requires Valid()
      modifies this, body, sender, p
      ensures Valid()
      ensures n <= p.Length && emitted == old(emitted) + p[..n] && p[n..] == old(p[n..])
      ensures err == NoErr ==> (n == p.Length || pending == []) && (p.Length > 0 ==> n > 0)
      ensures old(pending) != [] ==> err == NoErr && chunks == old(chunks) && n + |pending| == |old(pending)|
      ensures old(pending) == [] && old(done) ==> err == Eof
      ensures old(pending) == [] && err == NoErr ==>
                |chunks| == old(|chunks|) + 1 && chunks[..old(|chunks|)] == old(chunks)
                && n + |pending| == |Frame(sender.aead, sender.base, start + old(|chunks|), chunks[old(|chunks|)])|
      ensures err != NoErr ==> n == 0 && done && pending == [] && chunks == old(chunks)
      ensures old(done) ==> chunks == old(chunks) && limited == old(limited) && (err == NoErr || err == Eof)
      ensures !old(done) ==> (limited <==> err == SealLimit)
      ensures clean ==> err in {NoErr, Eof, SealLimit}
    {
      hide Encode, Concat, FrameCount, SmallChunks, Frame;
      if |pending| > 0 {
        n := Give(p);
        return n, NoErr;
      }
      if done {
        assert p[..0] == [];
        return 0, Eof;
      }
      err := NextFrame();
      if err != NoErr {
        assert p[..0] == [];
        return 0, err;
      }
      n := Give(p);
    }

    /** Hands the front of `pending` to the caller. */
    method Give(p: array<byte>) returns (n: nat)
      requires Valid()
      modifies this`pending, this`emitted, p
      ensures Valid()
      ensures n <= p.Length && emitted == old(emitted) + p[..n] && p[n..] == old(p[n..])
      ensures n + |pending| == |old(pending)| && (n == p.Length || pending == [])
    {
      hide Encode, Concat, FrameCount, SmallChunks;
      n := Copy(p, pending);
      assert pending == pending[..n] + pending[n..];
      pending, emitted := pending[n..], emitted + pending[..n];
    }

    /** Reads one chunk of the body and seals it into `pending`. */
    method NextFrame() returns (err: Err)
      requires Valid() && !done && pending == []
      modifies this, body, sender
      ensures Valid() && emitted == old(emitted)
      ensures err == NoErr ==>
                |chunks| == old(|chunks|) + 1 && chunks[..old(|chunks|)] == old(chunks)
                && pending == Frame(sender.aead, sender.base, start + old(|chunks|), chunks[old(|chunks|)]) && |pending| >= 4
      ensures err != NoErr ==> done && pending == [] && chunks == old(chunks)
      ensures limited <==> err == SealLimit
      ensures clean ==> err in {NoErr, Eof, SealLimit}
    {
      hide Encode, SenderNonce, Concat, BigEndian, Pow256, Flatten, CleanScript, SmallChunks, FrameCount, TakeRead;
      FrameCountStep(body.script);
      var plain;
      plain, err := body.Read(CHUNK_SIZE);
      if plain == [] && err != NoErr {
        done := true;
        return if err == Eof then Eof else SourceFailed;
      }
      var ok, ciphertext := sender.Seal(plain);
      if !ok {
        done, limited := true, true;
        return SealLimit;
      }
      EncodeSnoc(sender.aead, sender.base, chunks, plain, start);
      ConcatSnoc(chunks, plain);
      SmallSnoc(chunks, plain);
      assert input == Concat(chunks) + plain + body.Remaining();
      chunks := chunks + [plain];
      pending := BigEndian(|ciphertext|, 4) + ciphertext;
      assert emitted + [] == emitted;
      if err == Eof {
        done := true;
      }
      err := NoErr;
    }
  }

  /** The error a caller sees when a run of the response reader ends this way. */
  function ErrorFor(end: End): Err {
    match end
    case CleanEof => Eof
    case Overflow => CounterOverflow
    case TooLarge => ChunkTooLarge
    case Short => ShortChunk
    case AuthFailed => AuthenticationFailed
  }

  /** Folds the chunk counter into a copy of the base nonce, byte by byte. */
  method CounterNonce(base: Nonce, idx: nat) returns (nonce: Nonce)
    ensures nonce == ReaderNonce(base, idx) && IsReaderNonce(base, idx, nonce)
  {
    hide IsReaderNonce;
    var buf := new byte[NONCE_SIZE](k requires 0 <= k < NONCE_SIZE => base[k]);
    var counter := BigEndian(idx, 8);
    for i := 0 to 8
      invariant forall k :: 0 <= k < NONCE_SIZE ==>
        buf[k] == if 4 <= k < 4 + i then Xor(base[k], counter[k - 4]) else base[k]
    {
      buf[4 + i] := Xor(buf[4 + i], counter[i]);
    }
    nonce := buf[..];
    ReaderNonceBits(base, idx);
  }

  /** Reading `left` after opening `plains` completes the run over the whole wire. */
  ghost predicate OnTrack(a: Aead, base: Nonce, wire: bytes, left: bytes, plains: seq<bytes>) {
    var rest := Decode(a, base, left, |plains|);
    Decode(a, base, wire, 0) == Run(plains + rest.chunks, rest.end)
  }

  lemma TrackStart(a: Aead, base: Nonce, wire: bytes)
    ensures OnTrack(a, base, wire, wire, [])
  {
    var r := Decode(a, base, wire, 0);
    assert [] + r.chunks == r.chunks;
  }

  lemma TrackChunk(a: Aead, base: Nonce, wire: bytes, left: bytes, plains: seq<bytes>)
    requires OnTrack(a, base, wire, left, plains) && ReadStep(a, base, left, |plains|).Chunk?
    ensures var step := ReadStep(a, base, left, |plains|);
            OnTrack(a, base, wire, left[step.size..], plains + [step.plain])
  {
    hide ReadStep;
    var step := ReadStep(a, base, left, |plains|);
    var rest := Decode(a, base, left[step.size..], |plains| + 1);
    assert plains + ([step.plain] + rest.chunks) == (plains + [step.plain]) + rest.chunks;
  }

  lemma TrackStop(a: Aead, base: Nonce, wire: bytes, left: bytes, plains: seq<bytes>)
    requires OnTrack(a, base, wire, left, plains) && ReadStep(a, base, left, |plains|).Stop?
    ensures Decode(a, base, wire, 0) == Run(plains, ReadStep(a, base, left, |plains|).end)
  {
    hide ReadStep;
    assert plains + [] == plains;
  }

  lemma OpenStep(a: Aead, base: Nonce, left: bytes, i: nat, ciphertext: bytes)
    requires i < MAX_CHUNK_IDX && 4 + |ciphertext| <= |left| && FromBigEndian(left[..4]) == |ciphertext| <= MAX_CHUNK_SIZE
    requires ciphertext == left[4..4 + |ciphertext|]
    ensures var plain := a.open(ReaderNonce(base, i), ciphertext);
            ReadStep(a, base, left, i) == if plain.None? then Stop(AuthFailed) else Chunk(plain.value, 4 + |ciphertext|)
  {
  }

  /** Opens response frames as they are read. */
  class ResponseReader {
    const body: Source
    var gcm: Option<Aead>          // None once closed
    var baseNonce: bytes           // empty once closed
    var chunkIdx: nat
    var pending: bytes
    var done: bool

    ghost const aead: Aead
    ghost const base: Nonce
    ghost const wire: bytes        // everything the source held at the start
    ghost const clean: bool        // the source has no transport error
    ghost var plains: seq<bytes>   // chunks authenticated so far
    ghost var seen: seq<bytes>     // their ciphertexts
    ghost var delivered: bytes     // plaintext handed to callers so far
    ghost var closed: bool

    ghost predicate Valid()
      reads this, body
    {
      ValidAt(body.Remaining())
    }

    /** Valid, where `left` is what the chunks so far leave of the wire. */
    ghost predicate ValidAt(left: bytes)
      reads this, body
    {
      && (closed ==> done && pending == [])
      && (!closed ==> gcm == Some(aead) && baseNonce == base)
      && (!done ==> chunkIdx == |plains|)
      && |plains| == |seen| <= MAX_CHUNK_IDX
      && (forall i :: 0 <= i < |plains| ==> aead.open(ReaderNonce(base, i), seen[i]) == Some(plains[i]))
      && delivered + pending <= Concat(plains)
      && (!closed ==> delivered + pending == Concat(plains))
      && (clean ==> body.Clean())
      && (clean && !done ==> OnTrack(aead, base, wire, left, plains))
      && (clean && done && !closed ==> Decode(aead, base, wire, 0).chunks == plains)
    }

    constructor (body: Source, aead: Aead, base: Nonce)
      ensures Valid() && this.body == body && this.aead == aead && this.base == base
      ensures wire == body.Remaining() && clean == body.Clean()
      ensures plains == [] && delivered == [] && !closed && !done
    {
      this.body, gcm, baseNonce, chunkIdx, pending, done := body, Some(aead), base, 0, [], false;
      this.aead, this.base, wire, clean := aead, base, body.Remaining(), body.Clean();
      plains, seen, delivered, closed := [], [], [], false;
      new;
      TrackStart(aead, base, wire);
    }

    /**
     Gives out as much as the buffer takes of the pending plaintext, opening one chunk first if
     none is pending. A call without an error fills the buffer or empties the chunk.
     */
    method Read(p: array<byte>) returns (n: nat, err: Err)
      requires Valid()
      modifies this, body, p
      ensures Valid() && closed == old(closed)
      ensures n <= p.Length && delivered == old(delivered) + p[..n] && p[n..] == old(p[n..])
      ensures err == NoErr ==> n == p.Length || pending == []
      ensures old(pending) != [] ==> err == NoErr && plains == old(plains) && n + |pending| == |old(pending)|
      ensures old(pending) == [] && old(done) ==> err == Eof
      ensures old(pending) == [] && err == NoErr ==>
                |plains| == old(|plains|) + 1 && plains[..old(|plains|)] == old(plains) && n + |pending| == |plains[old(|plains|)]|
      ensures err != NoErr ==> n == 0 && pending == [] && plains == old(plains)
      ensures old(done) ==> done && plains == old(plains) && (err == NoErr || err == Eof)
      ensures clean && !old(done) && err != NoErr ==>
                var r := Decode(aead, base, wire, 0);
                plains == r.chunks && err == ErrorFor(r.end)
      ensures err == NoErr || err == SourceFailed ==> done == old(done)
      ensures err != NoErr && err != SourceFailed ==> done
      ensures clean ==> err != SourceFailed
    {
      hide Decode, OnTrack, ReaderNonce, Concat;
      if |pending| > 0 {
        n := Give(p);
        return n, NoErr;
      }
      assert p[..0] == [];
      if done {
        return 0, Eof;
      }
      if chunkIdx >= MAX_CHUNK_IDX {
        if clean {
          TrackStop(aead, base, wire, body.Remaining(), plains);
        }
        done := true;
        return 0, CounterOverflow;
      }
      err := NextChunk();
      if err != NoErr {
        return 0, err;
      }
      n := Give(p);
    }

    /** Hands the front of `pending` to the caller. */
    method Give(p: array<byte>) returns (n: nat)
      requires Valid()
      modifies this`pending, this`delivered, p
      ensures Valid()
      ensures n <= p.Length && delivered == old(delivered) + p[..n] && p[n..] == old(p[n..])
      ensures n + |pending| == |old(pending)| && (n == p.Length || pending == [])
    {
      hide Decode, OnTrack, ReaderNonce, Concat;
      n := Copy(p, pending);
      assert pending == pending[..n] + pending[n..];
      assert delivered + pending == (delivered + pending[..n]) + pending[n..];
      pending, delivered := pending[n..], delivered + pending[..n];
    }

    /** Reads one frame and opens it into `pending`. */
    method NextChunk() returns (err: Err)
      requires Valid() && !done && pending == [] && chunkIdx < MAX_CHUNK_IDX
      modifies this, body
      ensures Valid() && closed == old(closed) && delivered == old(delivered)
      ensures err == NoErr ==>
                && !done && |plains| == old(|plains|) + 1 && plains[..old(|plains|)] == old(plains)
                && pending == plains[old(|plains|)]
      ensures err != NoErr ==> pending == [] && plains == old(plains)
      ensures err != NoErr ==> (done <==> err != SourceFailed)
      ensures clean ==> err != SourceFailed
      ensures clean && err != NoErr ==>
                var r := Decode(aead, base, wire, 0);
                plains == r.chunks && err == ErrorFor(r.end)
    {
      hide BigEndian, FromBigEndian, ReaderNonce, Concat, Decode, OnTrack, ReadStep;
      ghost var left := body.Remaining();
      var ciphertext, fatal;
      ciphertext, err, fatal := ReadCiphertext();
      if err != NoErr {
        if clean {
          TrackStop(aead, base, wire, left, plains);
        }
        done := done || fatal;
        return;
      }
      err := OpenChunk(ciphertext, left);
    }

    /** Opens the ciphertext of the next chunk, which has been taken off `left`. */
    method OpenChunk(ciphertext: bytes, ghost left: bytes) returns (err: Err)
      requires ValidAt(left) && !done && pending == [] && chunkIdx < MAX_CHUNK_IDX
      requires 4 + |ciphertext| <= |left| && FromBigEndian(left[..4]) == |ciphertext| <= MAX_CHUNK_SIZE
      requires ciphertext == left[4..4 + |ciphertext|] && body.Remaining() == left[4 + |ciphertext|..]
      modifies this
      ensures Valid() && closed == old(closed) && delivered == old(delivered)
      ensures err in {NoErr, AuthenticationFailed} && (done <==> err != NoErr)
      ensures err == NoErr ==>
                && |plains| == old(|plains|) + 1 && plains[..old(|plains|)] == old(plains)
                && pending == plains[old(|plains|)]
      ensures err != NoErr ==>
                && pending == [] && plains == old(plains)
                && (clean ==> Decode(aead, base, wire, 0) == Run(plains, AuthFailed))
    {
      hide BigEndian, FromBigEndian, ReaderNonce, Concat, Decode, OnTrack, ReadStep;
      OpenStep(aead, base, left, chunkIdx, ciphertext);
      var nonce := CounterNonce(baseNonce, chunkIdx);
      chunkIdx := chunkIdx + 1;
      var result := gcm.value.open(nonce, ciphertext);
      if result.None? {
        if clean {
          TrackStop(aead, base, wire, left, plains);
        }
        done := true;
        return AuthenticationFailed;
      }
      if clean {
        TrackChunk(aead, base, wire, left, plains);
      }
      ConcatSnoc(plains, result.value);
      plains, seen := plains + [result.value], seen + [ciphertext];
      pending := result.value;
      err := NoErr;
    }

    /**
     Takes one length prefix and ciphertext off the source. A transport error inside the prefix
     is reported but not fatal; every other failure ends the stream.
     */
    method ReadCiphertext() returns (ciphertext: bytes, err: Err, fatal: bool)
      modifies body
      ensures old(body.Clean()) ==> body.Clean() && err != SourceFailed
      ensures fatal <==> err != NoErr && err != SourceFailed
      ensures err == NoErr ==>
                var left := old(body.Remaining());
                && 4 + |ciphertext| <= |left| && FromBigEndian(left[..4]) == |ciphertext| <= MAX_CHUNK_SIZE
                && ciphertext == left[4..4 + |ciphertext|] && body.Remaining() == left[4 + |ciphertext|..]
      ensures forall a: Aead, n: Nonce, i: nat :: old(body.Clean()) && err != NoErr && i < MAX_CHUNK_IDX ==>
                var step := ReadStep(a, n, old(body.Remaining()), i);
                fatal && step.Stop? && err == ErrorFor(step.end)
    {
      hide BigEndian, FromBigEndian, ReaderNonce;
      ghost var left := body.Remaining();
      ciphertext := [];
      var lenBuf;
      lenBuf, err := ReadFull(body, 4);
      if err != NoErr {
        if err == Eof || err == UnexpectedEof {
          return [], Eof, true;
        }
        return [], SourceFailed, false;
      }
      assert left[..4] == lenBuf;
      var chunkLen := FromBigEndian(lenBuf);
      if chunkLen > MAX_CHUNK_SIZE {
        return [], ChunkTooLarge, true;
      }
      ciphertext, err := ReadFull(body, chunkLen);
      if err != NoErr {
        return [], ShortChunk, true;
      }
      fatal := false;
      assert left == lenBuf + ciphertext + body.Remaining();
    }

    method Close()
      requires Valid()
      modifies this
      ensures Valid() && closed && done && delivered == old(delivered) && plains == old(plains)
    {
      done, pending, baseNonce, gcm := true, [], [], None;
      closed := true;
      assert delivered + [] == delivered;
    }
  }

  lemma PlainsArePrefix(r: ResponseReader, sent: seq<bytes>)
    requires r.Valid() && OpensOnlySent(r.aead, r.base, sent) && |sent| <= Pow256(NONCE_SIZE)
    ensures r.plains <= sent
  {
    hide Concat, SenderNonce, ReaderNonce, Decode, Pow256;
    forall i | 0 <= i < |r.plains|
      ensures i < |sent| && r.plains[i] == sent[i]
    {
      OpenedIsSent(r.aead, r.base, sent, i, r.seen[i]);
    }
    if |r.plains| > 0 {
      OpenedIsSent(r.aead, r.base, sent, |r.plains| - 1, r.seen[|r.plains| - 1]);
    }
  }

  /** Whatever the network did, everything a caller has received is a prefix of what was sent. */
  lemma DeliveredIsPrefix(r: ResponseReader, sent: seq<bytes>)
    requires r.Valid() && OpensOnlySent(r.aead, r.base, sent) && |sent| <= Pow256(NONCE_SIZE)
    ensures r.plains <= sent && r.delivered <= Concat(sent)
  {
    hide OpensOnlySent, Decode, Pow256, Concat;
    PlainsArePrefix(r, sent);
    assert r.plains == sent[..|r.plains|];
    ConcatPrefix(sent, |r.plains|);
    assert r.delivered <= r.delivered + r.pending;
  }

  /** How many of the buffers are not empty. */
  function Nonempties(sizes: seq<nat>): nat {
    if sizes == [] then 0 else Nonempties(sizes[..|sizes| - 1]) + if sizes[|sizes| - 1] > 0 then 1 else 0
  }

  lemma NoSizes(sizes: seq<nat>)
    ensures Nonempties(sizes[..0]) == 0
  {
  }

  lemma NonemptiesStep(sizes: seq<nat>, i: nat)
    requires i < |sizes|
    ensures Nonempties(sizes[..i + 1]) == Nonempties(sizes[..i]) + if sizes[i] > 0 then 1 else 0
  {
    assert sizes[..i + 1][..i] == sizes[..i];
  }

  /** How many nonempty buffers are sure to take a body off its request reader. */
  ghost function UpBudget(input: bytes, due: nat): nat {
    |input| + (4 + TAG_SIZE) * due + 1
  }

  /** How many nonempty buffers are sure to take a decoded wire off its response reader. */
  ghost function DownBudget(r: Run): nat {
    |Concat(r.chunks)| + |r.chunks| + 1
  }

  /** What a request reader can have given out is bounded by the body and its chunks. */
  lemma EmittedBound(r: RequestReader)
    requires r.Valid() && Lawful(r.sender.aead)
    ensures |r.emitted| < UpBudget(r.input, r.due)
  {
    hide Encode, Concat, FrameCount, SmallChunks, Lawful;
    EncodeLength(r.sender.aead, r.sender.base, r.chunks, r.start);
    assert |r.emitted| <= |r.emitted + r.pending|;
  }

  /** What a response reader can have given out and opened is bounded by the whole run. */
  lemma DeliveredBound(r: ResponseReader)
    requires r.Valid() && r.clean && !r.closed
    ensures |r.delivered| + |r.plains| < DownBudget(Decode(r.aead, r.base, r.wire, 0))
  {
    hide Decode, Concat, ReaderNonce;
    var run := Decode(r.aead, r.base, r.wire, 0);
    assert r.plains <= run.chunks;
    assert r.plains == run.chunks[..|r.plains|];
    ConcatPrefix(run.chunks, |r.plains|);
    assert |r.delivered| <= |r.delivered + r.pending|;
  }

  /**
   Reads with the given buffer sizes until they run out or an error is reported. Enough nonempty
   buffers reach the end: every chunk the body makes has then been sealed and given out, unless
   the sender ran out of message numbers.
   */
  method DrainRequest(r: RequestReader, sizes: seq<nat>) returns (wire: bytes, err: Err)
    requires r.Valid() && r.emitted == [] && !r.done && !r.limited
    modifies r, r.body, r.sender
    ensures r.Valid() && wire == r.emitted
    ensures err != NoErr ==> wire == Encode(r.sender.aead, r.sender.base, r.chunks, r.start)
    ensures r.clean ==> err in {NoErr, Eof, SealLimit}
    ensures r.clean && err == Eof ==> Concat(r.chunks) == r.input && |r.chunks| == r.due
    ensures err == SealLimit ==> |r.chunks| < r.due && r.start + |r.chunks| >= Pow256(NONCE_SIZE) - 1
    ensures Lawful(r.sender.aead) && Nonempties(sizes) >= UpBudget(r.input, r.due) ==> err != NoErr
  {
    hide Encode, Concat, SmallChunks, FrameCount, Lawful, Pow256, Frame, Nonempties;
    NoSizes(sizes);
    wire, err := [], NoErr;
    var i := 0;
    while i < |sizes| && err == NoErr
      invariant 0 <= i <= |sizes|
      invariant r.Valid() && wire == r.emitted
      invariant err != NoErr ==> r.pending == [] && r.done
      invariant r.limited <==> err == SealLimit
      invariant r.clean ==> err in {NoErr, Eof, SealLimit}
      invariant err == NoErr ==> Nonempties(sizes[..i]) <= |wire|
    {
      NonemptiesStep(sizes, i);
      var buf := new byte[sizes[i]];
      var n;
      n, err := r.Read(buf);
      wire := wire + buf[..n];
      i := i + 1;
    }
    assert err == NoErr ==> sizes[..i] == sizes;
    if Lawful(r.sender.aead) {
      EmittedBound(r);
    }
  }

  /** The same on the response side: enough nonempty buffers deliver everything that decodes, then the verdict. */
  method DrainResponse(r: ResponseReader, sizes: seq<nat>) returns (plain: bytes, err: Err)
    requires r.Valid() && r.delivered == [] && r.plains == [] && !r.closed && !r.done
    modifies r, r.body
    ensures r.Valid() && plain == r.delivered && !r.closed
    ensures r.clean && err != NoErr ==>
              var run := Decode(r.aead, r.base, r.wire, 0);
              plain == Concat(run.chunks) && err == ErrorFor(run.end)
    ensures r.clean && Nonempties(sizes) >= DownBudget(Decode(r.aead, r.base, r.wire, 0)) ==> err != NoErr
  {
    hide Decode, Concat, OnTrack, ReaderNonce, Nonempties;
    NoSizes(sizes);
    plain, err := [], NoErr;
    var i := 0;
    while i < |sizes| && err == NoErr
      invariant 0 <= i <= |sizes|
      invariant r.Valid() && plain == r.delivered && !r.closed
      invariant err == NoErr ==> !r.done
      invariant err == NoErr ==> Nonempties(sizes[..i]) <= |plain| + |r.plains|
      invariant r.clean && err != NoErr ==>
        var run := Decode(r.aead, r.base, r.wire, 0);
        plain == Concat(run.chunks) && err == ErrorFor(run.end)
    {
      NonemptiesStep(sizes, i);
      var buf := new byte[sizes[i]];
      var n;
      n, err := r.Read(buf);
      plain := plain + buf[..n];
      assert plain + [] == plain;
      i := i + 1;
    }
    assert err == NoErr ==> sizes[..i] == sizes;
    if r.clean {
      DeliveredBound(r);
    }
  }

  lemma {:induction false} FlattenSnoc(s: seq<Event>, e: Event)
    ensures Flatten(s + [e]) == Flatten(s) + e.data
  {
    if s == [] {
      assert s + [e] == [e];
      assert [e][1..] == [];
    } else {
      assert (s + [e])[1..] == s[1..] + [e];
      FlattenSnoc(s[1..], e);
    }
  }

  /** A transport that delivers `wire` in pieces of the given sizes, zero included, then EOF. */
  method Deliver(wire: bytes, pieces: seq<nat>) returns (s: Source)
    ensures fresh(s) && s.Clean() && s.Remaining() == wire
  {
    var script: seq<Event> := [];
    var at := 0;
    for i := 0 to |pieces|
      invariant at <= |wire| && Flatten(script) == wire[..at]
      invariant forall e <- script :: e.err == NoErr
    {
      var to := if at + pieces[i] <= |wire| then at + pieces[i] else |wire|;
      FlattenSnoc(script, Event(wire[at..to], NoErr));
      script, at := script + [Event(wire[at..to], NoErr)], to;
    }
    FlattenSnoc(script, Event(wire[at..], Eof));
    s := new Source(script + [Event(wire[at..], Eof)]);
  }

  lemma DecodedBody(aead: Aead, base: Nonce, chunks: seq<bytes>)
    requires Lawful(aead) && SmallChunks(chunks)
    ensures var run := Decode(aead, base, Encode(aead, base, chunks, 0), 0);
            && (if |chunks| < MAX_CHUNK_IDX then run.end == CleanEof && Concat(run.chunks) == Concat(chunks)
                else run.end == Overflow && Concat(run.chunks) <= Concat(chunks))
            && DownBudget(run) <= |Concat(chunks)| + |chunks| + 1
  {
    hide Encode, Decode, Concat, Lawful, SmallChunks;
    if |chunks| < MAX_CHUNK_IDX {
      DecodeEncode(aead, base, chunks, 0);
    } else {
      DecodeEncodeOverflow(aead, base, chunks, 0);
      ConcatPrefix(chunks, MAX_CHUNK_IDX);
    }
  }

  lemma LimitsOrdered()
    ensures MAX_CHUNK_IDX < Pow256(NONCE_SIZE) - 1
  {
    assert Pow256(2) == 0x1_0000;
    assert Pow256(4) == 0x1_0000 * Pow256(2);
    assert Pow256(6) == 0x1_0000 * Pow256(4);
    assert Pow256(8) == 0x1_0000 * Pow256(6);
    assert Pow256(10) == 0x1_0000 * Pow256(8);
    assert Pow256(12) == 0x1_0000 * Pow256(10);
  }

  /**
   End to end under one key and base nonce, with enough nonempty buffers on either side: however
   the body arrives, whatever sizes the buffers have and however the transport splits the wire,
   the plaintext is the body and the last result is EOF exactly when the body makes fewer than
   2^31 - 1 chunks. Otherwise a prefix arrives and the overflow is reported.
   */
  method Transfer(body: Source, aead: Aead, base: Nonce,
                  upSizes: seq<nat>, pieces: seq<nat>, downSizes: seq<nat>)
      returns (plain: bytes, upErr: Err, downErr: Err)
    requires Lawful(aead) && body.Clean()
    requires Nonempties(upSizes) >= UpBudget(body.Remaining(), FrameCount(body.script))
    requires Nonempties(downSizes) >= |body.Remaining()| + FrameCount(body.script) + 1
    modifies body
    ensures if old(FrameCount(body.script)) < MAX_CHUNK_IDX
            then upErr == Eof && downErr == Eof && plain == old(body.Remaining())
            else downErr == CounterOverflow && plain <= old(body.Remaining())
  {
    hide Encode, Decode, Concat, Lawful, SmallChunks, OnTrack, ReaderNonce, Flatten, CleanScript, FrameCount, Pow256;
    LimitsOrdered();
    var sender := new Sender(aead, base);
    var up := new RequestReader(body, sender);
    var wire;
    wire, upErr := DrainRequest(up, upSizes);
    var net := Deliver(wire, pieces);
    var down := new ResponseReader(net, aead, base);
    DecodedBody(aead, base, up.chunks);
    assert |Concat(up.chunks)| <= |up.input|;
    plain, downErr := DrainResponse(down, downSizes);
  }
}
