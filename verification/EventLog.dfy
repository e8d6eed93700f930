/**
 Replay of a TDX event log into the four runtime measurement registers, and what a register
 value commits to. The hash is a parameter; statements about it exhibit a collision or a
 preimage instead of assuming there is none.
 */
module EventLog {
  import opened Bytes

  const DIGEST_SIZE: nat := 48
  const REGISTERS: nat := 4

  type Hash = bytes -> bytes

  ghost predicate HashSized(h: Hash) {
    forall x :: |h(x)| == DIGEST_SIZE
  }

  /** A log entry; `digest` is None when its text is not valid hex. */
  datatype Entry = Entry(imr: int, digest: Option<bytes>)

  datatype ReplayError = IndexOutOfRange(event: nat) | InvalidDigest(event: nat)

  function Zeros(): bytes {
    seq(DIGEST_SIZE, _ => 0)
  }

  /** A short digest is padded with zeros; a long one is kept whole. */
  function Padded(d: bytes): (p: bytes)
    ensures |p| == if |d| < DIGEST_SIZE then DIGEST_SIZE else |d|
  {
    if |d| < DIGEST_SIZE then d + seq(DIGEST_SIZE - |d|, _ => 0) else d
  }

  /** The register after extending it, from zero, with each value in turn. */
  function Register(h: Hash, values: seq<bytes>): bytes {
    if values == [] then Zeros()
    else h(Register(h, values[..|values| - 1]) + values[|values| - 1])
  }

  predicate ValidEntry(e: Entry) {
    0 <= e.imr < REGISTERS && e.digest.Some?
  }

  ghost predicate ValidLog(log: seq<Entry>) {
    forall e <- log :: ValidEntry(e)
  }

  /** The padded digests of the entries for register `r`, in log order. */
  function DigestsFor(log: seq<Entry>, r: nat): seq<bytes> {
    if log == [] then []
    else
      var e := log[|log| - 1];
      DigestsFor(log[..|log| - 1], r) +
      if e.imr == r && e.digest.Some? then [Padded(e.digest.value)] else []
  }

  lemma DigestsExtend(log: seq<Entry>, e: Entry, r: nat)
    ensures DigestsFor(log + [e], r) ==
            if e.imr == r && e.digest.Some? then DigestsFor(log, r) + [Padded(e.digest.value)] else DigestsFor(log, r)
  {
    assert (log + [e])[..|log|] == log;
    assert DigestsFor(log, r) + [] == DigestsFor(log, r);
  }

  lemma RegisterExtend(h: Hash, values: seq<bytes>, v: bytes)
    ensures Register(h, values + [v]) == h(Register(h, values) + v)
  {
    assert (values + [v])[..|values|] == values;
  }

  /** The digest itself, with zeros after it if it is shorter than 48 bytes. */
  ghost predicate IsPadded(d: bytes, p: bytes) {
    d <= p && |p| == (if |d| < 48 then 48 else |d|) && forall k :: |d| <= k < |p| ==> p[k] == 0
  }

  /** One entry: its register becomes the hash of its old value followed by the padded digest. */
  ghost predicate Extends(h: Hash, before: seq<bytes>, e: Entry, after: seq<bytes>) {
    && 0 <= e.imr < |before| && e.digest.Some?
    && exists p :: IsPadded(e.digest.value, p) && after == before[e.imr := h(before[e.imr] + p)]
  }

  /** The states of the four registers, from zero, entry after entry. */
  ghost predicate Replays(h: Hash, log: seq<Entry>, states: seq<seq<bytes>>) {
    && |states| == |log| + 1 && states[0] == seq(4, _ => seq(48, _ => 0))
    && forall i :: 0 <= i < |log| ==> Extends(h, states[i], log[i], states[i + 1])
  }

  /** Replays the log; on a bad entry the registers hold the replay of the entries before it. */
  method ReplayEventLog(h: Hash, log: seq<Entry>) returns (rtmrs: array<bytes>, err: Option<ReplayError>, ghost states: seq<seq<bytes>>)
    ensures rtmrs.Length == REGISTERS
    ensures var n := if err.Some? then err.value.event else |log|;
            n <= |log| && Replays(h, log[..n], states) && rtmrs[..] == states[n]
    ensures err.None? ==>
              ValidLog(log) && forall r :: 0 <= r < REGISTERS ==> rtmrs[r] == Register(h, DigestsFor(log, r))
    ensures err.Some? ==>
              var i := err.value.event;
              && i < |log| && ValidLog(log[..i]) && !ValidEntry(log[i])
              && (err.value.IndexOutOfRange? <==> !(0 <= log[i].imr < REGISTERS))
              && forall r :: 0 <= r < REGISTERS ==> rtmrs[r] == Register(h, DigestsFor(log[..i], r))
  {
    hide Padded, Register, DigestsFor, Extends;
    rtmrs := new bytes[REGISTERS](_ => Zeros());
    states := [rtmrs[..]];
    NothingReplayed(h, log);
    for i := 0 to |log|
      invariant Replays(h, log[..i], states) && rtmrs[..] == states[i]
      invariant ValidLog(log[..i])
      invariant forall r :: 0 <= r < REGISTERS ==> rtmrs[r] == Register(h, DigestsFor(log[..i], r))
    {
      var e := log[i];
      if e.imr < 0 || e.imr > 3 {
        return rtmrs, Some(IndexOutOfRange(i)), states;
      }
      if e.digest.None? {
        return rtmrs, Some(InvalidDigest(i)), states;
      }
      var digest := Padded(e.digest.value);
      forall r | 0 <= r < REGISTERS
        ensures Register(h, DigestsFor(log[..i + 1], r)) == if r == e.imr then h(rtmrs[r] + digest) else rtmrs[r]
      {
        assert log[..i + 1] == log[..i] + [e];
        DigestsExtend(log[..i], e, r);
        RegisterExtend(h, DigestsFor(log[..i], r), digest);
      }
      ghost var before := rtmrs[..];
      rtmrs[e.imr] := h(rtmrs[e.imr] + digest);
      PaddedIs(h, before, e, rtmrs[..]);
      assert log[..i + 1] == log[..i] + [e];
      states := states + [rtmrs[..]];
    }
    assert log[..|log|] == log;
    err := None;
  }

  lemma NothingReplayed(h: Hash, log: seq<Entry>)
    ensures forall r :: Register(h, DigestsFor(log[..0], r)) == Zeros()
  {
  }

  lemma PaddedIs(h: Hash, before: seq<bytes>, e: Entry, after: seq<bytes>)
    requires 0 <= e.imr < |before| && e.digest.Some? && after == before[e.imr := h(before[e.imr] + Padded(e.digest.value))]
    ensures Extends(h, before, e, after)
  {
    assert IsPadded(e.digest.value, Padded(e.digest.value));
  }

  /** Entries for other registers do not affect a register. */
  lemma {:induction false} OtherRegistersIrrelevant(log: seq<Entry>, r: nat)
    ensures DigestsFor(log, r) == DigestsFor(Only(log, r), r)
  {
    if log != [] {
      var init, e := log[..|log| - 1], log[|log| - 1];
      OtherRegistersIrrelevant(init, r);
      assert log == init + [e] && Only(init, r) + [] == Only(init, r);
      DigestsExtend(init, e, r);
      DigestsExtend(Only(init, r), e, r);
    }
  }

  /** The sub-log of the entries for register `r`. */
  function Only(log: seq<Entry>, r: nat): seq<Entry> {
    if log == [] then []
    else Only(log[..|log| - 1], r) + if log[|log| - 1].imr == r then [log[|log| - 1]] else []
  }

  /** What a failure of commitment would give an adversary. */
  datatype Evidence = Collision(x: bytes, y: bytes) | ZeroPreimage(x: bytes)

  predicate Breaks(h: Hash, w: Evidence) {
    match w
    case Collision(x, y) => x != y && h(x) == h(y)
    case ZeroPreimage(x) => h(x) == Zeros()
  }

  /** Two value sequences with one register value are the same sequence, or the hash is broken. */
  lemma {:induction false} RegisterCommits(h: Hash, s: seq<bytes>, t: seq<bytes>) returns (w: Evidence)
    requires HashSized(h) && Register(h, s) == Register(h, t)
    ensures s == t || Breaks(h, w)
    decreases |s|
  {
    w := ZeroPreimage([]);
    if s != [] && t != [] {
      var x := Register(h, s[..|s| - 1]) + s[|s| - 1];
      var y := Register(h, t[..|t| - 1]) + t[|t| - 1];
      if x != y {
        w := Collision(x, y);
      } else {
        RegisterSized(h, s[..|s| - 1]);
        RegisterSized(h, t[..|t| - 1]);
        assert x[..DIGEST_SIZE] == y[..DIGEST_SIZE] && x[DIGEST_SIZE..] == y[DIGEST_SIZE..];
        w := RegisterCommits(h, s[..|s| - 1], t[..|t| - 1]);
        assert s == s[..|s| - 1] + [s[|s| - 1]] && t == t[..|t| - 1] + [t[|t| - 1]];
      }
    } else if s != [] {
      w := ZeroPreimage(Register(h, s[..|s| - 1]) + s[|s| - 1]);
    } else if t != [] {
      w := ZeroPreimage(Register(h, t[..|t| - 1]) + t[|t| - 1]);
    }
  }

  lemma RegisterSized(h: Hash, s: seq<bytes>)
    requires HashSized(h)
    ensures |Register(h, s)| == DIGEST_SIZE
  {
  }

  /**
   Two logs that replay to the same four registers carry the same padded digests for every
   register, or they yield a hash collision or an input that hashes to zero.
   */
  lemma LogCommitment(h: Hash, log: seq<Entry>, log': seq<Entry>) returns (w: Evidence)
    requires HashSized(h)
    requires forall r :: 0 <= r < REGISTERS ==> Register(h, DigestsFor(log, r)) == Register(h, DigestsFor(log', r))
    ensures (forall r :: 0 <= r < REGISTERS ==> DigestsFor(log, r) == DigestsFor(log', r)) || Breaks(h, w)
  {
    w := ZeroPreimage([]);
    for r := 0 to REGISTERS
      invariant forall k :: 0 <= k < r ==> DigestsFor(log, k) == DigestsFor(log', k)
    {
      w := RegisterCommits(h, DigestsFor(log, r), DigestsFor(log', r));
      if Breaks(h, w) {
        return;
      }
    }
  }

  /**
   The commitment is to padded digests and no finer: appending zeros to a short digest, up to
   the digest size, changes no register.
   */
  lemma PaddingInvisible(h: Hash, before: seq<Entry>, r: int, d: bytes, k: nat, reg: nat)
    requires |d| + k <= DIGEST_SIZE
    ensures DigestsFor(before + [Entry(r, Some(d))], reg) ==
            DigestsFor(before + [Entry(r, Some(d + seq(k, _ => 0)))], reg)
  {
    var e, e' := Entry(r, Some(d)), Entry(r, Some(d + seq(k, _ => 0)));
    assert (before + [e])[..|before|] == before && (before + [e'])[..|before|] == before;
    assert Padded(d) == Padded(d + seq(k, _ => 0));
  }
}
