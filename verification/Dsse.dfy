/** The DSSE pre-authentication encoding: what is signed determines what was meant. */
module Dsse {
  import opened Bytes

  const SPACE: byte := 32

  function Header(): bytes {
    [68, 83, 83, 69, 118, 49]  // "DSSEv1"
  }

  /** Decimal digits of `n`, most significant first, without leading zeros. */
  function Decimal(n: nat): (s: bytes)
    ensures s != [] && forall d <- s :: 48 <= d <= 57
  {
    (if n < 10 then [] else Decimal(n / 10)) + [(48 + n % 10) as byte]
  }

  function FromDecimal(s: bytes): int {
    if s == [] then 0 else 10 * FromDecimal(s[..|s| - 1]) + s[|s| - 1] as int - 48
  }

  lemma LastDigit(init: bytes, d: byte)
    ensures FromDecimal(init + [d]) == 10 * FromDecimal(init) + d as int - 48
  {
    var s := init + [d];
    assert s[..|s| - 1] == init;
  }

  lemma {:induction false} DecimalRoundTrip(n: nat)
    ensures FromDecimal(Decimal(n)) == n
  {
    var init := if n < 10 then [] else Decimal(n / 10);
    LastDigit(init, (48 + n % 10) as byte);
    if n >= 10 {
      DecimalRoundTrip(n / 10);
    }
    hide FromDecimal;
    assert n == 10 * (n / 10) + n % 10;
    assert n < 10 ==> n / 10 == 0;
    NoDigits();
  }

  lemma NoDigits()
    ensures FromDecimal([]) == 0
  {
  }

  function Pae(payloadType: bytes, payload: bytes): bytes {
    Header() + [SPACE] + Field(payloadType) + [SPACE] + Field(payload)
  }

  /** A length in decimal, a space and that many bytes. */
  function Field(s: bytes): bytes {
    Decimal(|s|) + [SPACE] + s
  }

  /** The decimal form of a number: its value, in digits, with no zero in front of another digit. */
  ghost predicate IsDecimal(s: bytes, n: nat) {
    s != [] && (forall d <- s :: 48 <= d <= 57) && FromDecimal(s) == n && (|s| > 1 ==> s[0] != 48)
  }

  lemma {:induction false} DecimalIs(n: nat)
    ensures IsDecimal(Decimal(n), n) && (n > 0 ==> Decimal(n)[0] != 48)
  {
    DecimalRoundTrip(n);
    if n >= 10 {
      DecimalIs(n / 10);
      assert Decimal(n)[0] == Decimal(n / 10)[0];
    }
  }

  /** "DSSEv1", the length of the type, the type, the length of the payload and the payload, between single spaces. */
  ghost predicate IsPae(buf: bytes, payloadType: bytes, payload: bytes) {
    exists m, n :: IsDecimal(m, |payloadType|) && IsDecimal(n, |payload|) &&
      buf == [68, 83, 83, 69, 118, 49, 32] + m + [32] + payloadType + [32] + n + [32] + payload
  }

  lemma PaeIs(payloadType: bytes, payload: bytes)
    ensures IsPae(Pae(payloadType, payload), payloadType, payload)
  {
    DecimalIs(|payloadType|);
    DecimalIs(|payload|);
    var m, n := Decimal(|payloadType|), Decimal(|payload|);
    hide IsDecimal, Decimal;
    assert Header() + [SPACE] == [68, 83, 83, 69, 118, 49, 32];
    Unnested(Header() + [SPACE], m, [SPACE], payloadType);
    Unnested(Header() + [SPACE] + m + [SPACE] + payloadType + [SPACE], n, [SPACE], payload);
  }

  lemma Unnested(a: bytes, b: bytes, c: bytes, d: bytes)
    ensures a + (b + c + d) == a + b + c + d
  {
  }

  method BuildPae(payloadType: bytes, payload: bytes) returns (buf: bytes)
    ensures buf == Pae(payloadType, payload) && IsPae(buf, payloadType, payload)
  {
    hide IsPae;
    PaeIs(payloadType, payload);
    buf := Header();
    buf := buf + [SPACE];
    buf := buf + Decimal(|payloadType|);
    buf := buf + [SPACE];
    buf := buf + payloadType;
    buf := buf + [SPACE];
    buf := buf + Decimal(|payload|);
    buf := buf + [SPACE];
    buf := buf + payload;
  }

  lemma SplitAtSpace(m: bytes, x: bytes, n: bytes, y: bytes)
    requires SPACE !in m && SPACE !in n && m + [SPACE] + x == n + [SPACE] + y
    ensures m == n && x == y
  {
    var u, v := m + [SPACE] + x, n + [SPACE] + y;
    assert u[|m|] == SPACE && v[|n|] == SPACE;
    assert |m| == |n|;
    assert m == u[..|m|] && n == v[..|n|];
    assert x == u[|m| + 1..] && y == v[|n| + 1..];
  }

  /** A field is a prefix code: it can be cut off the front of any text in one way only. */
  lemma FieldUnique(s: bytes, t: bytes, x: bytes, y: bytes)
    requires Field(s) + x == Field(t) + y
    ensures s == t && x == y
  {
    assert Field(s) + x == Decimal(|s|) + [SPACE] + (s + x);
    assert Field(t) + y == Decimal(|t|) + [SPACE] + (t + y);
    SplitAtSpace(Decimal(|s|), s + x, Decimal(|t|), t + y);
    DecimalRoundTrip(|s|);
    DecimalRoundTrip(|t|);
    assert s == (s + x)[..|s|] && t == (t + y)[..|t|];
    assert x == (s + x)[|s|..] && y == (t + y)[|t|..];
  }

  /** Equal encodings come from equal payload types and equal payloads, spaces and digits included. */
  lemma PaeInjective(t: bytes, p: bytes, t': bytes, p': bytes)
    requires Pae(t, p) == Pae(t', p')
    ensures t == t' && p == p'
  {
    var h := Header() + [SPACE];
    var x, y := [SPACE] + Field(p), [SPACE] + Field(p');
    assert Pae(t, p) == h + (Field(t) + x) && Pae(t', p') == h + (Field(t') + y);
    assert (h + (Field(t) + x))[|h|..] == Field(t) + x;
    assert (h + (Field(t') + y))[|h|..] == Field(t') + y;
    FieldUnique(t, t', x, y);
    assert Field(p) == x[1..] && Field(p') == y[1..];
    FieldUnique(p, p', [], []);
  }
}
