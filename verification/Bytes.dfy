/** Byte strings: big-endian counters, XOR and concatenation. */
module Bytes {
  newtype byte = x: int | 0 <= x < 256

  type bytes = seq<byte>

  datatype Option<+T> = None | Some(value: T)

  /** Exclusive or of the low `w` bits of two numbers, bit by bit. */
  function XorBits(a: nat, b: nat, w: nat): (r: nat)
    ensures r < Pow2(w)
  {
    if w == 0 then 0
    else 2 * XorBits(a / 2, b / 2, w - 1) + if a % 2 == b % 2 then 0 else 1
  }

  function Pow2(w: nat): nat {
    if w == 0 then 1 else 2 * Pow2(w - 1)
  }

  lemma {:induction false} XorBitsInjective(a: nat, b: nat, c: nat, w: nat)
    requires b < Pow2(w) && c < Pow2(w) && XorBits(a, b, w) == XorBits(a, c, w)
    ensures b == c
  {
    if w > 0 {
      XorBitsInjective(a / 2, b / 2, c / 2, w - 1);
    }
  }

  lemma {:induction false} XorBitsZero(a: nat, w: nat)
    requires a < Pow2(w)
    ensures XorBits(a, 0, w) == a
  {
    if w > 0 {
      XorBitsZero(a / 2, w - 1);
    }
  }

  /** Bit `k` of a number, the lowest being bit 0. */
  function Bit(n: nat, k: nat): (b: nat)
    ensures b < 2
  {
    Pow2Positive(k);
    n / Pow2(k) % 2
  }

  lemma {:induction false} Pow2Positive(k: nat)
    ensures Pow2(k) > 0
  {
    if k > 0 {
      Pow2Positive(k - 1);
    }
  }

  /** Bit `k` of a number is the bit before it of its half. */
  lemma BitOfHalf(n: nat, k: nat)
    requires k > 0
    ensures Bit(n, k) == Bit(n / 2, k - 1)
  {
    Pow2Positive(k - 1);
    DivideTwice(n, Pow2(k - 1));
  }

  /** Dividing by 2, or by 256, and then by `d`. */
  lemma DivideTwice(n: nat, d: nat)
    requires d > 0
    ensures n / (2 * d) == n / 2 / d && n / (256 * d) == n / 256 / d
  {
    var q, q' := n / 2 / d, n / 256 / d;
    var r, r' := n / 2 % d, n / 256 % d;
    assert n / 2 == d * q + r && n / 256 == d * q' + r';
    Quotient(n, 2 * d, q, 2 * r + n % 2);
    Quotient(n, 256 * d, q', 256 * r' + n % 256);
  }

  lemma Quotient(n: int, d: int, q: int, r: int)
    requires 0 <= r < d && n == d * q + r
    ensures n / d == q && n % d == r
  {
    var p := n / d;
    assert d * (p - q) == r - n % d;
    assert p - q >= 1 ==> d * (p - q) >= d;
    assert p - q <= -1 ==> d * (p - q) <= -d;
  }

  /** A bit is set exactly if the bits in its place differ. */
  lemma {:induction false} XorBit(a: nat, b: nat, w: nat, k: nat)
    requires k < w
    ensures Bit(XorBits(a, b, w), k) == 1 <==> Bit(a, k) != Bit(b, k)
  {
    var x, d := XorBits(a / 2, b / 2, w - 1), if a % 2 == b % 2 then 0 else 1;
    Quotient(XorBits(a, b, w), 2, x, d);
    if k > 0 {
      BitOfHalf(XorBits(a, b, w), k);
      BitOfHalf(a, k);
      BitOfHalf(b, k);
      XorBit(a / 2, b / 2, w - 1, k - 1);
    }
  }

  lemma Pow2Byte()
    ensures Pow2(8) == 256
  {
    assert Pow2(4) == 16;
  }

  /** Exclusive or of two bytes. */
  function Xor(a: byte, b: byte): byte {
    Pow2Byte();
    XorBits(a as nat, b as nat, 8) as byte
  }

  lemma XorInjective(a: byte, b: byte, c: byte)
    requires Xor(a, b) == Xor(a, c)
    ensures b == c
  {
    Pow2Byte();
    XorBitsInjective(a as nat, b as nat, c as nat, 8);
  }

  lemma XorZero(a: byte)
    ensures Xor(a, 0) == a
  {
    Pow2Byte();
    XorBitsZero(a as nat, 8);
  }

  /** Of its lowest eight bits, `r` has exactly those in which the other two differ. */
  ghost predicate IsXor(a: nat, b: nat, r: nat) {
    forall k: nat :: k < 8 ==> (Bit(r, k) == 1 <==> Bit(a, k) != Bit(b, k))
  }

  lemma XorIsXor(a: byte, b: byte)
    ensures IsXor(a as nat, b as nat, Xor(a, b) as nat)
  {
    Pow2Byte();
    var x, y := a as nat, b as nat;
    forall k: nat | k < 8
      ensures Bit(XorBits(x, y, 8), k) == 1 <==> Bit(x, k) != Bit(y, k)
    {
      XorBit(x, y, 8, k);
    }
  }

  function XorBytes(s: bytes, t: bytes): (r: bytes)
    requires |s| == |t|
    ensures |r| == |s|
  {
    seq(|s|, k requires 0 <= k < |s| => Xor(s[k], t[k]))
  }

  lemma XorBytesInjective(s: bytes, t: bytes, u: bytes)
    requires |s| == |t| == |u| && XorBytes(s, t) == XorBytes(s, u)
    ensures t == u
  {
    forall k | 0 <= k < |t|
      ensures t[k] == u[k]
    {
      assert XorBytes(s, t)[k] == XorBytes(s, u)[k];
      XorInjective(s[k], t[k], u[k]);
    }
  }

  lemma XorBytesZero(s: bytes)
    ensures XorBytes(s, seq(|s|, _ => 0)) == s
  {
    forall k | 0 <= k < |s|
      ensures Xor(s[k], 0) == s[k]
    {
      XorZero(s[k]);
    }
  }

  lemma XorBytesSplit(s0: bytes, s1: bytes, t0: bytes, t1: bytes)
    requires |s0| == |t0| && |s1| == |t1|
    ensures XorBytes(s0 + s1, t0 + t1) == XorBytes(s0, t0) + XorBytes(s1, t1)
  {
  }

  /** The low `w` base-256 digits of `n`, most significant first. */
  function BigEndian(n: nat, w: nat): (s: bytes)
    ensures |s| == w
  {
    if w == 0 then [] else BigEndian(n / 256, w - 1) + [(n % 256) as byte]
  }

  /** Digit `k` from the left of a big-endian number of `w` digits. */
  lemma {:induction false} BigEndianDigit(n: nat, w: nat, k: nat)
    requires k < w
    ensures BigEndian(n, w)[k] as nat == n / Pow256(w - 1 - k) % 256
  {
    if k < w - 1 {
      BigEndianDigit(n / 256, w - 1, k);
      DivideTwice(n, Pow256(w - 2 - k));
      assert Pow256(w - 1 - k) == 256 * Pow256(w - 2 - k);
    }
  }

  function FromBigEndian(s: bytes): nat {
    if s == [] then 0 else 256 * FromBigEndian(s[..|s| - 1]) + s[|s| - 1] as nat
  }

  function Pow256(w: nat): (p: nat)
    ensures p > 0
  {
    if w == 0 then 1 else 256 * Pow256(w - 1)
  }

  lemma {:induction false} BigEndianRoundTrip(n: nat, w: nat)
    requires n < Pow256(w)
    ensures FromBigEndian(BigEndian(n, w)) == n
  {
    if w > 0 {
      BigEndianRoundTrip(n / 256, w - 1);
      var s := BigEndian(n, w);
      assert s[..|s| - 1] == BigEndian(n / 256, w - 1);
    }
  }

  /** Leading zero digits do not change the value: a wider counter is the narrow one, zero-extended. */
  lemma {:induction false} BigEndianWiden(n: nat, w: nat, z: nat)
    requires n < Pow256(w)
    ensures BigEndian(n, z + w) == seq(z, _ => 0) + BigEndian(n, w)
  {
    if w == 0 {
      BigEndianOfZero(z);
    } else {
      BigEndianWiden(n / 256, w - 1, z);
    }
  }

  lemma {:induction false} BigEndianOfZero(w: nat)
    ensures BigEndian(0, w) == seq(w, _ => 0)
  {
    if w > 0 {
      BigEndianOfZero(w - 1);
    }
  }

  function Concat<T>(xs: seq<seq<T>>): seq<T> {
    if xs == [] then [] else xs[0] + Concat(xs[1..])
  }

  lemma {:induction false} ConcatAppend<T>(xs: seq<seq<T>>, ys: seq<seq<T>>)
    ensures Concat(xs + ys) == Concat(xs) + Concat(ys)
  {
    if xs == [] {
      assert xs + ys == ys;
    } else {
      assert (xs + ys)[0] == xs[0] && (xs + ys)[1..] == xs[1..] + ys;
      ConcatAppend(xs[1..], ys);
    }
  }

  lemma ConcatSnoc<T>(xs: seq<seq<T>>, y: seq<T>)
    ensures Concat(xs + [y]) == Concat(xs) + y
  {
    ConcatAppend(xs, [y]);
    assert Concat([y]) == y + Concat([]);
  }

  /** Cutting a list of pieces short cuts their concatenation short. */
  lemma ConcatPrefix<T>(xs: seq<seq<T>>, n: nat)
    requires n <= |xs|
    ensures Concat(xs[..n]) <= Concat(xs)
  {
    assert xs == xs[..n] + xs[n..];
    ConcatAppend(xs[..n], xs[n..]);
  }
}
