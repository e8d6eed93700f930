/**
 The history of the proxy: requests begun, reports they were judged by, keys checked, bodies
 posted, responses relayed, failure marks set and lifted. What may be appended depends on the
 events before it.
 */
module ProxyLog {
  import opened Bytes
  import opened ProxyModel

  datatype Posted = Plaintext(body: string) | Ciphertext(id: nat, key: string)

  /**
   `hit` is the live cached report a request finds as it begins; `own` says that the request
   received its report itself; `initial` says that a body was encrypted
   with the attestation its request began with.
   */
  datatype Event =
    | Begin(key: Key, hit: Option<Factors>)
    | Attested(key: Key, report: Option<Factors>, own: bool)
    | Check(key: Key, signingKey: string)
    | Post(key: Key, payload: Posted, initial: bool)
    | Response(key: Key, report: Option<Factors>)
    | Mark(key: Key)
    | Lift(key: Key)

  type Log = seq<Event>

  // ---------------------------------------------------------------- what a log amounts to

  datatype Kind = Framing | Checking | Sending | Turning

  function KindOf(e: Event): Kind {
    match e
    case Begin(_, _) => Framing
    case Attested(_, _, _) => Framing
    case Check(_, _) => Checking
    case Post(_, _, _) => Sending
    case Response(_, _) => Sending
    case Mark(_) => Turning
    case Lift(_) => Turning
  }

  /** The events of one kind, in order. */
  function Only(log: Log, kind: Kind): Log {
    if log == [] then []
    else
      var e := log[|log| - 1];
      Only(log[..|log| - 1], kind) + if KindOf(e) == kind then [e] else []
  }

  function CheckedIn(log: Log): set<(Key, string)> {
    if log == [] then {}
    else
      var e := log[|log| - 1];
      CheckedIn(log[..|log| - 1]) + if e.Check? then {(e.key, e.signingKey)} else {}
  }

  function MarksIn(log: Log): set<Key> {
    if log == [] then {}
    else
      var e, before := log[|log| - 1], MarksIn(log[..|log| - 1]);
      if e.Mark? then before + {e.key} else if e.Lift? then before - {e.key} else before
  }

  function PostCount(log: Log): nat {
    if log == [] then 0 else PostCount(log[..|log| - 1]) + if log[|log| - 1].Post? then 1 else 0
  }

  function InitialCount(log: Log): nat {
    if log == [] then 0
    else InitialCount(log[..|log| - 1]) + if log[|log| - 1].Post? && log[|log| - 1].initial then 1 else 0
  }

  /** The request under way, and the report it is judged by once there is one. */
  datatype Stage = Idle | Busy(key: Key, report: Option<Factors>, own: bool)

  function StageOf(log: Log): Stage {
    if log == [] then Idle
    else
      match log[|log| - 1]
      case Begin(k, _) => Busy(k, None, false)
      case Attested(k, report, own) => Busy(k, report, own)
      case _ => StageOf(log[..|log| - 1])
  }

  // ---------------------------------------------------------------- what may be appended

  predicate NeedsE2ee(providers: map<string, Provider>, k: Key) {
    k.provider in providers && providers[k.provider].e2ee
  }

  /** The request under way is for `k` and is judged by an unblocked report whose binding passed. */
  predicate UnderTrust(stage: Stage, k: Key, force: bool) {
    stage.Busy? && stage.key == k && stage.report.Some? && Trusted(stage.report.value, force)
  }

  /**
   Everything happens within a request for its pair. For an E2EE provider, a body is posted only as
   a ciphertext to a key already checked, and a body is posted or a response relayed only under a
   trusted report while no failure mark is set. A response is relayed under the report its request
   is judged by. A mark is lifted only under a trusted report that the request fetched itself.
   */
  predicate GoodAfter(log: Log, e: Event, providers: map<string, Provider>, force: bool) {
    var stage := StageOf(log);
    e.Begin? ||
    (&& stage.Busy? && stage.key == e.key
     && match e
        case Post(k, payload, _) =>
          NeedsE2ee(providers, k) ==>
            && UnderTrust(stage, k, force) && k !in MarksIn(log)
            && payload.Ciphertext? && payload.key != "" && (k, payload.key) in CheckedIn(log)
        case Response(k, report) =>
          && report == stage.report
          && (NeedsE2ee(providers, k) ==> UnderTrust(stage, k, force) && k !in MarksIn(log))
        case Lift(k) => UnderTrust(stage, k, force) && stage.own
        case _ => true)
  }

  ghost predicate AllGood(log: Log, providers: map<string, Provider>, force: bool) {
    forall i :: 0 <= i < |log| ==> GoodAfter(log[..i], log[i], providers, force)
  }

  lemma AllGoodExtend(log: Log, e: Event, providers: map<string, Provider>, force: bool)
    requires AllGood(log, providers, force) && GoodAfter(log, e, providers, force)
    ensures AllGood(log + [e], providers, force)
  {
    hide GoodAfter;
    var next := log + [e];
    forall i | 0 <= i < |next|
      ensures GoodAfter(next[..i], next[i], providers, force)
    {
      assert next[..i] == log[..i];
      assert log[..|log|] == log;
    }
  }

  lemma BeginIsGood(log: Log, k: Key, hit: Option<Factors>, providers: map<string, Provider>, force: bool)
    ensures GoodAfter(log, Begin(k, hit), providers, force)
  {
  }

  lemma PlainIsGood(log: Log, e: Event, providers: map<string, Provider>, force: bool)
    requires (e.Attested? || e.Check? || e.Mark?) && StageOf(log).Busy? && StageOf(log).key == e.key
    ensures GoodAfter(log, e, providers, force)
  {
  }

  lemma SendIsGood(log: Log, e: Event, providers: map<string, Provider>, force: bool)
    requires StageOf(log).Busy? && StageOf(log).key == e.key && (e.Post? || (e.Response? && e.report == StageOf(log).report))
    requires NeedsE2ee(providers, e.key) ==>
               && UnderTrust(StageOf(log), e.key, force) && e.key !in MarksIn(log)
               && (e.Post? ==> e.payload.Ciphertext? && e.payload.key != "" && (e.key, e.payload.key) in CheckedIn(log))
    ensures GoodAfter(log, e, providers, force)
  {
  }

  lemma LiftIsGood(log: Log, k: Key, providers: map<string, Provider>, force: bool)
    requires UnderTrust(StageOf(log), k, force) && StageOf(log).own
    ensures GoodAfter(log, Lift(k), providers, force)
  {
  }

  /** What one more event does to everything computed from the log. */
  lemma Extended(log: Log, e: Event)
    ensures CheckedIn(log + [e]) == CheckedIn(log) + if e.Check? then {(e.key, e.signingKey)} else {}
    ensures MarksIn(log + [e]) ==
            if e.Mark? then MarksIn(log) + {e.key} else if e.Lift? then MarksIn(log) - {e.key} else MarksIn(log)
    ensures PostCount(log + [e]) == PostCount(log) + if e.Post? then 1 else 0
    ensures InitialCount(log + [e]) == InitialCount(log) + if e.Post? && e.initial then 1 else 0
    ensures StageOf(log + [e]) ==
            match e
            case Begin(k, _) => Busy(k, None, false)
            case Attested(k, report, own) => Busy(k, report, own)
            case _ => StageOf(log)
    ensures forall kind :: Only(log + [e], kind) == Only(log, kind) + if KindOf(e) == kind then [e] else []
  {
    assert (log + [e])[..|log|] == log;
  }

  lemma StageBegun(log: Log, k: Key, hit: Option<Factors>)
    ensures StageOf(log + [Begin(k, hit)]) == Busy(k, None, false)
  {
  }

  lemma StageAttested(log: Log, k: Key, report: Option<Factors>, own: bool)
    ensures StageOf(log + [Attested(k, report, own)]) == Busy(k, report, own)
  {
  }

  /** One body for `k` was posted. */
  predicate OnePost(before: Log, after: Log, k: Key, initial: bool) {
    && |after| == |before| + 1 && after[..|before|] == before
    && after[|before|].Post? && after[|before|].key == k && after[|before|].initial == initial
  }

  /** The stage is a matter of the framing events alone. */
  lemma {:induction false} StageOfFrames(log: Log)
    ensures StageOf(log) == StageOf(Only(log, Framing))
  {
    if log != [] {
      var init, e := log[..|log| - 1], log[|log| - 1];
      StageOfFrames(init);
      Extended(Only(init, Framing), e);
      assert Only(init, Framing) + [] == Only(init, Framing);
    }
  }

  // ---------------------------------------------------------------- what the log means

  lemma {:induction false} CheckedIff(log: Log, k: Key, signingKey: string)
    ensures (k, signingKey) in CheckedIn(log) <==> exists i :: 0 <= i < |log| && log[i] == Check(k, signingKey)
  {
    if log != [] {
      var n := |log| - 1;
      CheckedIff(log[..n], k, signingKey);
      if i :| 0 <= i < n && log[..n][i] == Check(k, signingKey) {
        assert log[i] == Check(k, signingKey);
      }
      if i :| 0 <= i < |log| && log[i] == Check(k, signingKey) {
        assert i < n ==> log[..n][i] == Check(k, signingKey);
      }
    }
  }

  /** A pair is marked exactly when its last mark has not been lifted since. */
  lemma {:induction false} MarkedIff(log: Log, k: Key)
    ensures k in MarksIn(log) <==> exists i :: 0 <= i < |log| && StandingMark(log, i, k)
  {
    if log != [] {
      var n := |log| - 1;
      MarkedIff(log[..n], k);
      if k in MarksIn(log) {
        if log[n] == Mark(k) {
          assert StandingMark(log, n, k);
        } else {
          var i :| 0 <= i < n && StandingMark(log[..n], i, k);
          assert log[i] == Mark(k);
          forall j | i < j < |log|
            ensures log[j] != Lift(k)
          {
            assert j < n ==> log[..n][j] != Lift(k);
          }
          assert StandingMark(log, i, k);
        }
      }
      if i :| 0 <= i < |log| && StandingMark(log, i, k) {
        if i < n {
          assert StandingMark(log[..n], i, k);
          assert log[n] != Lift(k);
        }
      }
    }
  }

  ghost predicate StandingMark(log: Log, i: nat, k: Key)
    requires i < |log|
  {
    log[i] == Mark(k) && forall j :: i < j < |log| ==> log[j] != Lift(k)
  }

  /** In a good log, a body for an E2EE provider was encrypted to a key checked at an earlier point. */
  lemma PostedAfterCheck(log: Log, i: nat, providers: map<string, Provider>, force: bool)
    requires AllGood(log, providers, force) && i < |log| && log[i].Post? && NeedsE2ee(providers, log[i].key)
    ensures log[i].payload.Ciphertext?
    ensures exists j :: 0 <= j < i && log[j] == Check(log[i].key, log[i].payload.key)
  {
    assert GoodAfter(log[..i], log[i], providers, force);
    CheckedIff(log[..i], log[i].key, log[i].payload.key);
    var j :| 0 <= j < i && log[..i][j] == Check(log[i].key, log[i].payload.key);
    assert log[j] == log[..i][j];
  }

  /** In a good log, every mark before a posted E2EE body or a relayed E2EE response was lifted in between. */
  lemma SentUnmarked(log: Log, i: nat, m: nat, providers: map<string, Provider>, force: bool)
    requires AllGood(log, providers, force) && m < i < |log| && KindOf(log[i]) == Sending && NeedsE2ee(providers, log[i].key)
    requires log[m] == Mark(log[i].key)
    ensures exists j :: m < j < i && log[j] == Lift(log[i].key)
  {
    assert GoodAfter(log[..i], log[i], providers, force);
    MarkedIff(log[..i], log[i].key);
    assert !StandingMark(log[..i], m, log[i].key);
    var j :| m < j < i && log[..i][j] == Lift(log[i].key);
    assert log[j] == log[..i][j];
  }

  /** The part of the log from `from` to `to` is one request for `k`. */
  ghost predicate OneRequest(log: Log, from: nat, to: nat, k: Key) {
    && from < to <= |log| && log[from].Begin? && log[from].key == k
    && forall i :: from < i < to ==> !log[i].Begin? && log[i].key == k
  }

  /** Within a request, the stage is what the request's latest Attested event says. */
  lemma {:induction false} StageWithin(log: Log, from: nat, to: nat, k: Key, i: nat)
    requires OneRequest(log, from, to, k) && from < i <= to
    ensures StageOf(log[..i]).Busy?
    ensures StageOf(log[..i]) == Busy(k, None, false)
            || exists j :: from < j < i && log[j].Attested? && StageOf(log[..i]) == Busy(k, log[j].report, log[j].own)
  {
    assert log[..i][..i - 1] == log[..i - 1] && log[..i][i - 1] == log[i - 1];
    if i - 1 > from && !log[i - 1].Attested? {
      StageWithin(log, from, to, k, i - 1);
    }
  }

  /** In a good log, a mark is lifted only after its own request fetched the report it lifts it under. */
  lemma LiftedAfterFetch(log: Log, from: nat, to: nat, k: Key, i: nat, providers: map<string, Provider>, force: bool)
    requires AllGood(log, providers, force) && OneRequest(log, from, to, k) && from < i < to && log[i].Lift?
    ensures exists j :: from < j < i && log[j].Attested? && log[j].own && log[j].report.Some? && Trusted(log[j].report.value, force)
  {
    assert GoodAfter(log[..i], log[i], providers, force);
    StageWithin(log, from, to, k, i);
  }

  /** In a good log, a response is relayed under a report that its own request was judged by. */
  lemma RespondedUnder(log: Log, from: nat, to: nat, k: Key, i: nat, providers: map<string, Provider>, force: bool)
    requires AllGood(log, providers, force) && OneRequest(log, from, to, k) && from < i < to && log[i].Response?
    ensures log[i].report.None? || exists j :: from < j < i && log[j].Attested? && log[j].report == log[i].report
  {
    assert GoodAfter(log[..i], log[i], providers, force);
    StageWithin(log, from, to, k, i);
  }

  // ---------------------------------------------------------------- recognising a request in the log

  lemma {:induction false} OnlyAppend(a: Log, b: Log, kind: Kind)
    ensures Only(a + b, kind) == Only(a, kind) + Only(b, kind)
    decreases |b|
  {
    if b == [] {
      assert a + b == a;
    } else {
      assert (a + b)[..|a + b| - 1] == a + b[..|b| - 1];
      OnlyAppend(a, b[..|b| - 1], kind);
    }
  }

  lemma {:induction false} OnlyHas(log: Log, kind: Kind, i: nat)
    requires i < |log| && KindOf(log[i]) == kind
    ensures log[i] in Only(log, kind)
  {
    if i < |log| - 1 {
      OnlyHas(log[..|log| - 1], kind, i);
    }
  }

  /** From a Begin on, with at most one more framing event, and that an Attested one, a log is one request. */
  lemma RequestAt(log: Log, from: nat, k: Key, tail: Log, providers: map<string, Provider>, force: bool)
    requires AllGood(log, providers, force) && from < |log| && log[from].Begin? && log[from].key == k && Only(log[from + 1..], Framing) == tail
    requires tail == [] || (|tail| == 1 && tail[0].Attested? && tail[0].key == k)
    ensures OneRequest(log, from, |log|, k)
    ensures forall i :: from < i < |log| && log[i].Attested? ==> tail == [log[i]]
  {
    hide Only, AllGood;
    FramesInTail(log, from, tail);
    KeysWithin(log, from, k, |log|, providers, force);
  }

  lemma BeginAt(before: Log, after: Log, begin: Event)
    requires Grew(before + [begin], after)
    ensures |before| < |after| && after[|before|] == begin
  {
    var whole := before + [begin];
    assert after[|before|] == whole[|before|];
  }

  lemma FramesInTail(log: Log, from: nat, tail: Log)
    requires from < |log| && Only(log[from + 1..], Framing) == tail && |tail| <= 1
    ensures forall i :: from < i < |log| && KindOf(log[i]) == Framing ==> tail == [log[i]]
  {
    var rest := log[from + 1..];
    forall i | from < i < |log| && KindOf(log[i]) == Framing
      ensures tail == [log[i]]
    {
      assert log[i] == rest[i - from - 1];
      OnlyHas(rest, Framing, i - from - 1);
    }
  }

  /** What a log grew by, in terms of its framing events. */
  lemma RestFrames(before: Log, after: Log, begin: Event, tail: Log)
    requires begin.Begin? && Grew(before + [begin], after) && Only(after, Framing) == Only(before, Framing) + [begin] + tail
    ensures Only(after[|before| + 1..], Framing) == tail
  {
    var rest := after[|before| + 1..];
    assert after == (before + [begin]) + rest;
    OnlyAppend(before + [begin], rest, Framing);
    Extended(before, begin);
    hide Only;
    var a := Only(before, Framing) + [begin];
    assert tail == (a + tail)[|a|..] == (a + Only(rest, Framing))[|a|..];
  }

  lemma {:induction false} KeysWithin(log: Log, from: nat, k: Key, i: nat, providers: map<string, Provider>, force: bool)
    requires AllGood(log, providers, force) && from < i <= |log| && log[from].Begin? && log[from].key == k
    requires forall j :: from < j < |log| ==> !log[j].Begin? && (log[j].Attested? ==> log[j].key == k)
    ensures forall j :: from < j < i ==> log[j].key == k
    ensures StageOf(log[..i]).Busy? && StageOf(log[..i]).key == k
  {
    assert log[..i][..i - 1] == log[..i - 1] && log[..i][i - 1] == log[i - 1];
    if i - 1 > from {
      KeysWithin(log, from, k, i - 1, providers, force);
      assert GoodAfter(log[..i - 1], log[i - 1], providers, force);
    }
  }

  /** The log has grown. */
  predicate Grew(before: Log, after: Log) {
    before <= after
  }

  lemma GrewTwice(a: Log, b: Log, c: Log)
    requires Grew(a, b) && Grew(b, c)
    ensures Grew(a, c)
  {
  }

  lemma GrewNone(a: Log)
    ensures Grew(a, a)
  {
  }

  lemma GrewPast(a: Log, e: Event, b: Log)
    requires Grew(a + [e], b)
    ensures |a| < |b| && b[..|a|] == a
  {
    assert b[..|a| + 1] == a + [e];
    assert b[..|a|] == b[..|a| + 1][..|a|];
  }

  /** Something was sent after `before`, last of all a response for `k`. */
  predicate Responded(before: Log, after: Log, k: Key) {
    |before| < |after| && after[|after| - 1].Response? && after[|after| - 1].key == k
  }

  /** A request was posted, and a response relayed to it under this report. */
  predicate PostedAndResponded(before: Log, after: Log, k: Key, report: Option<Factors>) {
    && |before| + 2 <= |after| && after[|after| - 1] == Response(k, report)
    && after[|after| - 2].Post? && after[|after| - 2].key == k
  }

  /** A response among what was sent is one in the log. */
  lemma ResponseInLog(before: Log, log: Log, k: Key)
    requires |before| <= |log| && log[..|before|] == before && Responded(Only(before, Sending), Only(log, Sending), k)
    ensures exists i :: |before| <= i < |log| && log[i].Response? && log[i].key == k
  {
    hide Only;
    var rest := log[|before|..];
    assert log == before + rest;
    OnlyAppend(before, rest, Sending);
    var e := LastOf(Only(before, Sending), Only(rest, Sending));
    ResponseIn(rest, e, k);
    var i :| 0 <= i < |rest| && rest[i].Response? && rest[i].key == k;
    assert log[|before| + i] == rest[i];
  }

  lemma LastOf(a: Log, b: Log) returns (e: Event)
    requires |a| < |a + b|
    ensures e in b && e == (a + b)[|a + b| - 1]
  {
    e := b[|b| - 1];
  }

  lemma ResponseIn(rest: Log, e: Event, k: Key)
    requires e in Only(rest, Sending) && e.Response? && e.key == k
    ensures exists i :: 0 <= i < |rest| && rest[i].Response? && rest[i].key == k
  {
    var i := IsIn(rest, Sending, e);
  }

  lemma {:induction false} IsIn(log: Log, kind: Kind, e: Event) returns (i: nat)
    requires e in Only(log, kind)
    ensures i < |log| && log[i] == e
  {
    i := |log| - 1;
    if log[i] != e {
      i := IsIn(log[..|log| - 1], kind, e);
    }
  }
}
