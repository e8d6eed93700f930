/**
 The keys of an EHBP response: a secret exported from the request's HPKE context, bound to the
 encapsulated key and the server's nonce, in the shape of section 4.4 of RFC 9458.
 */
module EhbpSession {
  import opened Bytes
  import opened EhbpFraming
  import opened EhbpReaders

  const KEY_SIZE: nat := 32
  const RESPONSE_NONCE_SIZE: nat := 32

  type KeyBytes = s: bytes | |s| == KEY_SIZE witness seq(KEY_SIZE, _ => 0)

  /** HKDF, expanded under its two labels, and the AEAD of a key. */
  datatype Kdf = Kdf(extract: (bytes, bytes) -> bytes, expandKey: bytes -> KeyBytes, expandNonce: bytes -> Nonce, aead: KeyBytes -> Aead)

  function Salt(encapKey: bytes, responseNonce: bytes): bytes {
    encapKey + responseNonce
  }

  /** What the server seals a response with, from the same exported secret. */
  function ResponseAead(kdf: Kdf, secret: bytes, encapKey: bytes, responseNonce: bytes): Aead {
    kdf.aead(kdf.expandKey(kdf.extract(Salt(encapKey, responseNonce), secret)))
  }

  function ResponseBase(kdf: Kdf, secret: bytes, encapKey: bytes, responseNonce: bytes): Nonce {
    kdf.expandNonce(kdf.extract(Salt(encapKey, responseNonce), secret))
  }

  /** Per-request state; wiping drops both parts. */
  class Session {
    const kdf: Kdf
    var encapKey: bytes
    var sender: Option<() -> Option<bytes>>   // exports the response secret, or fails

    ghost predicate Usable()
      reads this
    {
      |encapKey| == KEY_SIZE && sender.Some?
    }

    constructor (kdf: Kdf, encapKey: bytes, exporter: () -> Option<bytes>)
      requires |encapKey| == KEY_SIZE
      ensures Usable() && this.kdf == kdf && this.encapKey == encapKey && sender == Some(exporter)
    {
      this.kdf, this.encapKey, sender := kdf, encapKey, Some(exporter);
    }

    method Zero()
      modifies this
      ensures encapKey == [] && sender == None && !Usable()
    {
      encapKey, sender := [], None;
    }

    /** `nonce` is None when its hex form does not decode. The session itself is left as it was. */
    method DecryptResponse(body: Source, nonce: Option<bytes>) returns (reader: Option<ResponseReader>)
      requires Usable()
      ensures reader.Some? <==> nonce.Some? && |nonce.value| == RESPONSE_NONCE_SIZE && sender.value().Some?
      ensures reader.Some? ==>
                var r, secret := reader.value, sender.value().value;
                && fresh(r) && r.Valid() && r.body == body && !r.done && r.chunkIdx == 0
                && r.aead == ResponseAead(kdf, secret, encapKey, nonce.value)
                && r.base == ResponseBase(kdf, secret, encapKey, nonce.value)
                && var prk := kdf.extract(encapKey + nonce.value, secret);
                && r.aead == kdf.aead(kdf.expandKey(prk)) && r.base == kdf.expandNonce(prk)
    {
      if nonce.None? || |nonce.value| != RESPONSE_NONCE_SIZE {
        return None;
      }
      var secret := sender.value();
      if secret.None? {
        return None;
      }
      var salt := encapKey + nonce.value;
      var prk := kdf.extract(salt, secret.value);
      var aeadKey := kdf.expandKey(prk);
      var aeadNonce := kdf.expandNonce(prk);
      var r := new ResponseReader(body, kdf.aead(aeadKey), aeadNonce);
      reader := Some(r);
    }
  }

  /** A response sealed by the server under the derived keys reads back chunk for chunk. */
  lemma ResponseReadsBack(kdf: Kdf, secret: bytes, encapKey: bytes, nonce: bytes, chunks: seq<bytes>)
    requires Lawful(ResponseAead(kdf, secret, encapKey, nonce))
    requires |chunks| < MAX_CHUNK_IDX && SmallChunks(chunks)
    ensures var a, base := ResponseAead(kdf, secret, encapKey, nonce), ResponseBase(kdf, secret, encapKey, nonce);
            Decode(a, base, Encode(a, base, chunks, 0), 0) == Run(chunks, CleanEof)
  {
    DecodeEncode(ResponseAead(kdf, secret, encapKey, nonce), ResponseBase(kdf, secret, encapKey, nonce), chunks, 0);
  }

  /** Two different salts from which the same secret extracts the same key material. */
  predicate Collides(kdf: Kdf, secret: bytes, s: bytes, t: bytes) {
    s != t && kdf.extract(s, secret) == kdf.extract(t, secret)
  }

  /**
   Two responses have one salt exactly if they answer the same encapsulated key with the same nonce,
   so that they share key material only if they do, or if their own two salts collide.
   */
  lemma SaltBinds(kdf: Kdf, secret: bytes, encap0: bytes, nonce0: bytes, encap1: bytes, nonce1: bytes)
    requires |encap0| == |encap1| == KEY_SIZE
    ensures Salt(encap0, nonce0) == Salt(encap1, nonce1) <==> encap0 == encap1 && nonce0 == nonce1
    ensures kdf.extract(Salt(encap0, nonce0), secret) == kdf.extract(Salt(encap1, nonce1), secret) ==>
              (encap0 == encap1 && nonce0 == nonce1) || Collides(kdf, secret, Salt(encap0, nonce0), Salt(encap1, nonce1))
  {
    var s, t := Salt(encap0, nonce0), Salt(encap1, nonce1);
    if s == t {
      assert encap0 == s[..KEY_SIZE] && encap1 == t[..KEY_SIZE];
      assert nonce0 == s[KEY_SIZE..] && nonce1 == t[KEY_SIZE..];
    }
  }
}
