/**
 The Proof-of-Cloud multisig client: nonces are collected from all peers at once, in whatever
 order they answer, and then signatures are chained through the peers one at a time.

 Peers are functions from requests to replies; the order of stage-1 answers is the order of the
 `arrivals` list.
 */
module Poc {
  import opened Bytes

  datatype NonceEntry = NonceEntry(peerUrl: string, moniker: string, nonce: string, machineId: string)

  datatype Error =
    | PeerFailed(url: string)
    | TooFewNonces
    | EmptyMachineId(url: string)
    | MachineIdDisagrees(url: string)
    | DuplicateMoniker(moniker: string)
    | Stage2Transport(url: string)
    | Stage2Status(url: string, status: int)
    | Stage2Unparseable(url: string)
    | JwtInvalid(reason: JwtError)
    | WrapperDisagrees(url: string)
    | NoFinalJwt

  datatype JwtError =
    | Malformed | NoQuoteHash | WrongQuoteHash | NoTimestamp | StaleTimestamp | Expired
    | NoMachineId | WrongMachineId

  /** Crashed is the run-time panic of indexing an empty list of nonces. */
  datatype PocResult = Registered(machineId: string, tag: string, jwt: string) | NotRegistered | Err(error: Error) | Crashed

  /** The part of a result that callers branch on. */
  datatype Class = IsRegistered | IsNotRegistered | IsError | IsCrash

  function ClassOf(r: PocResult): Class {
    match r
    case Registered(_, _, _) => IsRegistered
    case NotRegistered => IsNotRegistered
    case Err(_) => IsError
    case Crashed => IsCrash
  }

  // ---------------------------------------------------------------- stage 1

  /** One peer's answer to the first request. The body is None when it does not parse. */
  datatype Answer = TransportError | Http(status: int, body: Option<Stage1Body>)
  datatype Stage1Body = Stage1Body(moniker: string, nonce: string, machineId: string)

  datatype Collected = Forbidden | Failed(error: Error) | Nonce(entry: NonceEntry)

  /** The answer is a usable nonce from this peer. */
  predicate Answers(url: string, a: Answer, n: NonceEntry) {
    && n.peerUrl == url && a == Http(200, Some(Stage1Body(n.moniker, n.nonce, n.machineId)))
    && n.moniker != "" && n.nonce != ""
  }

  function Classify(url: string, a: Answer): (c: Collected)
    ensures c.Forbidden? <==> a.Http? && a.status == 403
    ensures forall n :: c == Nonce(n) <==> Answers(url, a, n)
  {
    match a
    case TransportError => Failed(PeerFailed(url))
    case Http(status, body) =>
      if status == 403 then Forbidden
      else if status != 200 || body.None? || body.value.moniker == "" || body.value.nonce == "" then Failed(PeerFailed(url))
      else Nonce(NonceEntry(url, body.value.moniker, body.value.nonce, body.value.machineId))
  }

  /** The answers in order of arrival, each with the peer it came from. */
  function Arrivals(answers: seq<(string, Answer)>): seq<Collected> {
    seq(|answers|, i requires 0 <= i < |answers| => Classify(answers[i].0, answers[i].1))
  }

  datatype Stage1 = Whitelisted(nonces: seq<NonceEntry>) | Refused | Short(error: Error)

  /** Taking answers in order until one forbids or the quorum is reached. */
  function Collect(arrivals: seq<Collected>, quorum: int, got: seq<NonceEntry>, lastErr: Option<Error>): Stage1 {
    if arrivals == [] then
      if |got| < quorum then Short(if lastErr.Some? then lastErr.value else TooFewNonces) else Whitelisted(got)
    else
      match arrivals[0]
      case Forbidden => Refused
      case Failed(e) => Collect(arrivals[1..], quorum, got, Some(e))
      case Nonce(n) =>
        if |got| + 1 >= quorum then Whitelisted(got + [n])
        else Collect(arrivals[1..], quorum, got + [n], lastErr)
  }

  method CollectNonces(arrivals: seq<Collected>, quorum: int) returns (s: Stage1)
    ensures s == Collect(arrivals, quorum, [], None)
  {
    var nonces: seq<NonceEntry> := [];
    var lastErr: Option<Error> := None;
    for i := 0 to |arrivals|
      invariant Collect(arrivals, quorum, [], None) == Collect(arrivals[i..], quorum, nonces, lastErr)
    {
      assert arrivals[i..][0] == arrivals[i] && arrivals[i..][1..] == arrivals[i + 1..];
      var r := arrivals[i];
      match r {
        case Forbidden =>
          return Refused;
        case Failed(e) =>
          lastErr := Some(e);
        case Nonce(n) =>
          nonces := nonces + [n];
          if |nonces| >= quorum {
            return Whitelisted(nonces);
          }
      }
    }
    if |nonces| < quorum {
      return Short(if lastErr.Some? then lastErr.value else TooFewNonces);
    }
    s := Whitelisted(nonces);
  }

  /** How many nonces end the collection: the first one does, whatever the quorum. */
  function Needed(quorum: int): nat {
    if quorum <= 0 then 1 else quorum
  }

  /** The nonces among the answers, in order of arrival. */
  function NoncesOf(arrivals: seq<Collected>): seq<NonceEntry> {
    if arrivals == [] then []
    else (if arrivals[0].Nonce? then [arrivals[0].entry] else []) + NoncesOf(arrivals[1..])
  }

  lemma {:induction false} CollectedNonces(arrivals: seq<Collected>, quorum: int, got: seq<NonceEntry>, lastErr: Option<Error>)
    requires |got| < Needed(quorum)
    ensures var s := Collect(arrivals, quorum, got, lastErr);
            s.Whitelisted? ==>
              && s.nonces <= got + NoncesOf(arrivals)
              && (|s.nonces| == Needed(quorum) || (quorum <= 0 && s.nonces == []))
  {
    if arrivals != [] {
      var here := if arrivals[0].Nonce? then [arrivals[0].entry] else [];
      assert got + NoncesOf(arrivals) == (got + here) + NoncesOf(arrivals[1..]);
      match arrivals[0] {
        case Forbidden =>
        case Failed(e) =>
          assert got + here == got;
          CollectedNonces(arrivals[1..], quorum, got, Some(e));
        case Nonce(n) =>
          if |got| + 1 < quorum {
            CollectedNonces(arrivals[1..], quorum, got + [n], lastErr);
          }
      }
    }
  }

  /** A refusal arrives before the quorum is reached. */
  ghost predicate RefusedFirst(arrivals: seq<Collected>, missing: nat) {
    exists i :: 0 <= i < |arrivals| && arrivals[i].Forbidden? && |NoncesOf(arrivals[..i])| < missing
  }

  lemma RefusedTail(arrivals: seq<Collected>, missing: nat)
    requires arrivals != [] && !arrivals[0].Forbidden?
    ensures RefusedFirst(arrivals, missing) <==> RefusedFirst(arrivals[1..], missing - if arrivals[0].Nonce? && missing > 0 then 1 else 0)
  {
    var here := if arrivals[0].Nonce? then 1 else 0;
    forall i | 0 < i <= |arrivals|
      ensures |NoncesOf(arrivals[..i])| == here + |NoncesOf(arrivals[1..][..i - 1])|
    {
      assert arrivals[..i][1..] == arrivals[1..][..i - 1];
    }
    if i :| 0 <= i < |arrivals[1..]| && arrivals[1..][i].Forbidden? && here + |NoncesOf(arrivals[1..][..i])| < missing {
      assert arrivals[i + 1].Forbidden?;
    }
    if i :| 0 < i < |arrivals| && arrivals[i].Forbidden? && |NoncesOf(arrivals[..i])| < missing {
      assert arrivals[1..][i - 1].Forbidden?;
    }
  }

  /** Stage 1 is refused exactly if a refusal comes first, and otherwise ends with the quorum, or with too few nonces. */
  lemma {:induction false} CollectIff(arrivals: seq<Collected>, quorum: int, got: seq<NonceEntry>, lastErr: Option<Error>)
    requires |got| < Needed(quorum)
    ensures var s := Collect(arrivals, quorum, got, lastErr);
            var all := got + NoncesOf(arrivals);
            && (s.Refused? <==> RefusedFirst(arrivals, Needed(quorum) - |got|))
            && (s.Short? <==> !s.Refused? && |all| < quorum)
            && (s.Whitelisted? ==> s.nonces == if |all| < Needed(quorum) then all else all[..Needed(quorum)])
  {
    if arrivals != [] {
      var here := if arrivals[0].Nonce? then [arrivals[0].entry] else [];
      var missing := Needed(quorum) - |got|;
      assert got + NoncesOf(arrivals) == (got + here) + NoncesOf(arrivals[1..]);
      if arrivals[0].Forbidden? {
        assert NoncesOf(arrivals[..0]) == [];
      } else {
        RefusedTail(arrivals, missing);
        if arrivals[0].Failed? {
          assert got + here == got;
          CollectIff(arrivals[1..], quorum, got, Some(arrivals[0].error));
        } else if |got| + 1 < quorum {
          CollectIff(arrivals[1..], quorum, got + here, lastErr);
        }
      }
    }
  }

  /** When every answer is needed, nothing is decided before the last one unless a peer forbids. */
  lemma {:induction false} CollectAll(arrivals: seq<Collected>, quorum: int, got: seq<NonceEntry>, lastErr: Option<Error>)
    requires |got| < quorum && |got| + |arrivals| <= quorum
    ensures var s := Collect(arrivals, quorum, got, lastErr);
            if Forbidden in arrivals then s.Refused?
            else if |got| + |NoncesOf(arrivals)| < quorum then s.Short?
            else s == Whitelisted(got + NoncesOf(arrivals))
  {
    if arrivals != [] {
      NoncesBounded(arrivals[1..]);
      match arrivals[0] {
        case Forbidden =>
        case Failed(e) =>
          CollectAll(arrivals[1..], quorum, got, Some(e));
        case Nonce(n) =>
          assert got + ([n] + NoncesOf(arrivals[1..])) == (got + [n]) + NoncesOf(arrivals[1..]);
          if |got| + 1 < quorum {
            CollectAll(arrivals[1..], quorum, got + [n], lastErr);
          }
      }
    }
  }

  lemma {:induction false} NoncesBounded(arrivals: seq<Collected>)
    ensures |NoncesOf(arrivals)| <= |arrivals|
  {
    if arrivals != [] {
      NoncesBounded(arrivals[1..]);
    }
  }

  // ---------------------------------------------------------------- URL order

  /** The lexicographic order on strings. */
  predicate Less(a: string, b: string) {
    if b == [] then false
    else if a == [] then true
    else a[0] < b[0] || (a[0] == b[0] && Less(a[1..], b[1..]))
  }

  lemma {:induction false} LessTotal(a: string, b: string)
    ensures Less(a, b) || a == b || Less(b, a)
  {
    if a != [] && b != [] && a[0] == b[0] {
      LessTotal(a[1..], b[1..]);
      assert a == [a[0]] + a[1..] && b == [b[0]] + b[1..];
    }
  }

  lemma {:induction false} LessTransitive(a: string, b: string, c: string)
    requires Less(a, b) && Less(b, c)
    ensures Less(a, c)
  {
    if a != [] && a[0] == b[0] == c[0] {
      LessTransitive(a[1..], b[1..], c[1..]);
    }
  }

  lemma {:induction false} LessIrreflexive(a: string)
    ensures !Less(a, a)
  {
    if a != [] {
      LessIrreflexive(a[1..]);
    }
  }

  ghost predicate StrictlySorted(s: seq<NonceEntry>) {
    forall i, j :: 0 <= i < j < |s| ==> Less(s[i].peerUrl, s[j].peerUrl)
  }

  ghost predicate DistinctUrls(s: seq<NonceEntry>) {
    forall i, j :: 0 <= i < j < |s| ==> s[i].peerUrl != s[j].peerUrl
  }

  function Insert(n: NonceEntry, s: seq<NonceEntry>): seq<NonceEntry> {
    if s == [] || Less(n.peerUrl, s[0].peerUrl) then [n] + s else [s[0]] + Insert(n, s[1..])
  }

  /** The entries in ascending order of URL. */
  function SortByUrl(s: seq<NonceEntry>): seq<NonceEntry> {
    if s == [] then [] else Insert(s[0], SortByUrl(s[1..]))
  }

  lemma {:induction false} InsertSorted(n: NonceEntry, s: seq<NonceEntry>)
    requires StrictlySorted(s) && forall e <- s :: e.peerUrl != n.peerUrl
    ensures StrictlySorted(Insert(n, s)) && multiset(Insert(n, s)) == multiset(s) + multiset{n}
  {
    hide StrictlySorted;
    if s != [] {
      LessTotal(n.peerUrl, s[0].peerUrl);
      assert s == [s[0]] + s[1..];
      SortedTail(s);
      if Less(n.peerUrl, s[0].peerUrl) {
        SortedFront(n, s);
      } else {
        InsertSorted(n, s[1..]);
        var t := Insert(n, s[1..]);
        assert multiset(t) == multiset(s[1..] + [n]);
        forall e | e in t
          ensures Less(s[0].peerUrl, e.peerUrl)
        {
          assert e in multiset(t);
          assert e in s[1..] || e == n;
        }
        SortedCons(s[0], t);
      }
    } else {
      SortedCons(n, s);
    }
  }

  lemma SortedTail(s: seq<NonceEntry>)
    requires StrictlySorted(s) && s != []
    ensures StrictlySorted(s[1..]) && forall e <- s[1..] :: Less(s[0].peerUrl, e.peerUrl)
  {
  }

  lemma SortedCons(n: NonceEntry, s: seq<NonceEntry>)
    requires StrictlySorted(s) || s == []
    requires forall e <- s :: Less(n.peerUrl, e.peerUrl)
    ensures StrictlySorted([n] + s)
  {
    forall i, j | 0 <= i < j < |s| + 1
      ensures Less(([n] + s)[i].peerUrl, ([n] + s)[j].peerUrl)
    {
      assert s[j - 1] in s;
    }
  }

  lemma SortedFront(n: NonceEntry, s: seq<NonceEntry>)
    requires StrictlySorted(s) && s != [] && Less(n.peerUrl, s[0].peerUrl)
    ensures StrictlySorted([n] + s)
  {
    forall e | e in s
      ensures Less(n.peerUrl, e.peerUrl)
    {
      if e != s[0] {
        SortedTail(s);
        LessTransitive(n.peerUrl, s[0].peerUrl, e.peerUrl);
      }
    }
    SortedCons(n, s);
  }

  lemma {:induction false} SortSorted(s: seq<NonceEntry>)
    requires DistinctUrls(s)
    ensures StrictlySorted(SortByUrl(s)) && multiset(SortByUrl(s)) == multiset(s)
  {
    if s != [] {
      var t := SortByUrl(s[1..]);
      SortSorted(s[1..]);
      hide StrictlySorted;
      DistinctTail(s, t);
      InsertSorted(s[0], t);
      assert s == [s[0]] + s[1..];
    }
  }

  lemma DistinctTail(s: seq<NonceEntry>, t: seq<NonceEntry>)
    requires s != [] && DistinctUrls(s) && multiset(t) == multiset(s[1..])
    ensures forall e <- t :: e.peerUrl != s[0].peerUrl
  {
    forall e | e in t
      ensures e.peerUrl != s[0].peerUrl
    {
      assert e in multiset(t) && e in s[1..];
    }
  }

  /** A strictly sorted list is determined by its elements. */
  lemma {:induction false} SortedUnique(s: seq<NonceEntry>, t: seq<NonceEntry>)
    requires StrictlySorted(s) && StrictlySorted(t) && multiset(s) == multiset(t)
    ensures s == t
  {
    if s != [] {
      SortedHead(s, t);
      TailBag(s);
      TailBag(t);
      SortedUnique(s[1..], t[1..]);
      assert s == [s[0]] + s[1..] && t == [t[0]] + t[1..];
    } else {
      assert |multiset(t)| == |t|;
    }
  }

  lemma TailBag(s: seq<NonceEntry>)
    requires s != []
    ensures multiset(s[1..]) == multiset(s) - multiset{s[0]}
  {
    assert s == [s[0]] + s[1..];
  }

  lemma SortedHead(s: seq<NonceEntry>, t: seq<NonceEntry>)
    requires StrictlySorted(s) && StrictlySorted(t) && multiset(s) == multiset(t) && s != []
    ensures t != [] && s[0] == t[0]
  {
    assert |s| == |multiset(s)| == |multiset(t)| == |t|;
    assert s[0] in multiset(t) && t[0] in multiset(s);
    var i :| 0 <= i < |t| && t[i] == s[0];
    var j :| 0 <= j < |s| && s[j] == t[0];
    if i != 0 && j != 0 {
      LessTransitive(s[0].peerUrl, s[j].peerUrl, s[0].peerUrl);
      LessIrreflexive(s[0].peerUrl);
    }
  }

  /** Ascending by URL. */
  ghost predicate ByUrl(s: seq<NonceEntry>) {
    forall i, j :: 0 <= i < j < |s| ==> !Less(s[j].peerUrl, s[i].peerUrl)
  }

  lemma {:induction false} InsertOrdered(n: NonceEntry, s: seq<NonceEntry>)
    requires ByUrl(s)
    ensures ByUrl(Insert(n, s)) && multiset(Insert(n, s)) == multiset(s) + multiset{n}
  {
    hide ByUrl;
    if s == [] {
      OrderedCons(n, s);
    } else {
      assert s == [s[0]] + s[1..];
      OrderedTail(s);
      if Less(n.peerUrl, s[0].peerUrl) {
        NoneBelow(n, s);
        OrderedCons(n, s);
      } else {
        var t := Insert(n, s[1..]);
        InsertOrdered(n, s[1..]);
        assert multiset(t) == multiset(s[1..] + [n]);
        forall e | e in t
          ensures !Less(e.peerUrl, s[0].peerUrl)
        {
          assert e in multiset(t);
        }
        OrderedCons(s[0], t);
      }
    }
  }

  lemma OrderedTail(s: seq<NonceEntry>)
    requires ByUrl(s) && s != []
    ensures ByUrl(s[1..]) && forall e <- s[1..] :: !Less(e.peerUrl, s[0].peerUrl)
  {
  }

  lemma OrderedCons(n: NonceEntry, s: seq<NonceEntry>)
    requires (ByUrl(s) || s == []) && forall e <- s :: !Less(e.peerUrl, n.peerUrl)
    ensures ByUrl([n] + s)
  {
  }

  lemma NoneBelow(n: NonceEntry, s: seq<NonceEntry>)
    requires s != [] && Less(n.peerUrl, s[0].peerUrl) && forall e <- s[1..] :: !Less(e.peerUrl, s[0].peerUrl)
    ensures forall e <- s :: !Less(e.peerUrl, n.peerUrl)
  {
    assert s == [s[0]] + s[1..];
    LessIrreflexive(s[0].peerUrl);
    forall e | e in s
      ensures !Less(e.peerUrl, n.peerUrl)
    {
      if Less(e.peerUrl, n.peerUrl) {
        LessTransitive(e.peerUrl, n.peerUrl, s[0].peerUrl);
      }
    }
  }

  /** Sorting puts the same entries in order. */
  lemma {:induction false} SortOrders(s: seq<NonceEntry>)
    ensures ByUrl(SortByUrl(s)) && multiset(SortByUrl(s)) == multiset(s)
  {
    if s != [] {
      SortOrders(s[1..]);
      InsertOrdered(s[0], SortByUrl(s[1..]));
      assert s == [s[0]] + s[1..];
    }
  }

  // ---------------------------------------------------------------- consistency checks

  ghost predicate OneMachine(nonces: seq<NonceEntry>) {
    forall n <- nonces :: n.machineId != "" && n.machineId == nonces[0].machineId
  }

  ghost predicate DistinctMonikers(nonces: seq<NonceEntry>) {
    forall i, j :: 0 <= i < j < |nonces| ==> nonces[i].moniker != nonces[j].moniker
  }

  /** The first entry from `i` on whose machine id is empty or differs from the first one's. */
  function MachineError(nonces: seq<NonceEntry>, i: nat): (e: Option<Error>)
    requires i <= |nonces|
    ensures e.None? <==> forall k :: i <= k < |nonces| ==> nonces[k].machineId != "" && nonces[k].machineId == nonces[0].machineId
    decreases |nonces| - i
  {
    if i == |nonces| then None
    else if nonces[i].machineId == "" then Some(EmptyMachineId(nonces[i].peerUrl))
    else if nonces[i].machineId != nonces[0].machineId then Some(MachineIdDisagrees(nonces[i].peerUrl))
    else MachineError(nonces, i + 1)
  }

  method CheckMachineIdConsistency(nonces: seq<NonceEntry>) returns (err: Option<Error>)
    ensures err == MachineError(nonces, 0) && (err.None? <==> OneMachine(nonces))
  {
    for i := 0 to |nonces|
      invariant MachineError(nonces, 0) == MachineError(nonces, i)
    {
      if nonces[i].machineId == "" {
        return Some(EmptyMachineId(nonces[i].peerUrl));
      }
      if nonces[i].machineId != nonces[0].machineId {
        return Some(MachineIdDisagrees(nonces[i].peerUrl));
      }
    }
    err := None;
  }

  /** The first entry whose moniker was used by an earlier one. */
  function MonikerError(nonces: seq<NonceEntry>): (e: Option<Error>)
    ensures e.None? <==> DistinctMonikers(nonces)
  {
    if nonces == [] then None
    else
      var init, n := nonces[..|nonces| - 1], nonces[|nonces| - 1];
      var e := MonikerError(init);
      assert forall i, j :: 0 <= i < j < |init| ==> nonces[i].moniker == init[i].moniker && nonces[j].moniker == init[j].moniker;
      if e.Some? then e
      else if exists k :: 0 <= k < |init| && init[k].moniker == n.moniker then Some(DuplicateMoniker(n.moniker))
      else None
  }

  lemma {:induction false} MonikerErrorPrefix(nonces: seq<NonceEntry>, k: nat)
    requires k <= |nonces| && MonikerError(nonces[..k]).Some?
    ensures MonikerError(nonces) == MonikerError(nonces[..k])
  {
    if k < |nonces| {
      assert nonces[..|nonces| - 1][..k] == nonces[..k];
      MonikerErrorPrefix(nonces[..|nonces| - 1], k);
    } else {
      assert nonces[..k] == nonces;
    }
  }

  lemma NoMonikers(nonces: seq<NonceEntry>)
    requires nonces == []
    ensures MonikerError(nonces).None?
  {
  }

  lemma MonikerStep(nonces: seq<NonceEntry>, i: nat)
    requires i < |nonces| && MonikerError(nonces[..i]).None?
    ensures MonikerError(nonces[..i + 1]) ==
            if exists k :: 0 <= k < i && nonces[k].moniker == nonces[i].moniker then Some(DuplicateMoniker(nonces[i].moniker)) else None
  {
    var upTo := nonces[..i + 1];
    assert upTo[..i] == nonces[..i];
    assert forall k :: 0 <= k < i ==> upTo[..i][k] == nonces[k];
  }

  method CheckMonikerUniqueness(nonces: seq<NonceEntry>) returns (err: Option<Error>)
    ensures err == MonikerError(nonces) && (err.None? <==> DistinctMonikers(nonces))
  {
    var seen: map<string, string> := map[];
    hide MonikerError, DistinctMonikers;
    NoMonikers(nonces[..0]);
    for i := 0 to |nonces|
      invariant forall k :: 0 <= k < i ==> nonces[k].moniker in seen
      invariant forall m <- seen :: exists k :: 0 <= k < i && nonces[k].moniker == m
      invariant MonikerError(nonces[..i]).None?
    {
      MonikerStep(nonces, i);
      if nonces[i].moniker in seen {
        MonikerErrorPrefix(nonces, i + 1);
        return Some(DuplicateMoniker(nonces[i].moniker));
      }
      seen := seen[nonces[i].moniker := nonces[i].peerUrl];
    }
    assert nonces[..|nonces|] == nonces;
    err := None;
  }

  function NoncesMap(nonces: seq<NonceEntry>): map<string, string> {
    if nonces == [] then map[]
    else NoncesMap(nonces[..|nonces| - 1])[nonces[|nonces| - 1].moniker := nonces[|nonces| - 1].nonce]
  }

  // ---------------------------------------------------------------- stage 2

  datatype Request = Request(url: string, nonces: map<string, string>, partialSigs: Option<map<string, string>>)

  /** A parsed reply body; `sigs` is None when it is not an object of strings. */
  datatype Stage2Body = Stage2Body(jwt: string, machineId: string, tag: string, sigs: Option<map<string, string>>)
  datatype Reply = NoReply | Status(code: int, body: Option<Stage2Body>)

  datatype Claims = Claims(quoteHash: string, timestamp: Option<int>, expiresAt: Option<int>, machineId: string, tag: string)

  /** Everything outside the client: the peers, JWT decoding, the quote's hash and the clock. */
  datatype World = World(reply: Request -> Reply, decode: string -> Option<Claims>, quoteHash: string, nowNanos: int)

  const NANOS: int := 1_000_000_000
  const WINDOW_NANOS: int := 600 * NANOS

  function VerifyClaims(w: World, jwt: string, expectedMachineId: string): (r: (Option<JwtError>, Option<Claims>))
    ensures r.0.None? ==> r.1 == w.decode(jwt) && r.1.Some?
    ensures r.0.None? ==>
              var c := r.1.value;
              && c.quoteHash == w.quoteHash && c.timestamp.Some?
              && -WINDOW_NANOS <= w.nowNanos - c.timestamp.value * NANOS <= WINDOW_NANOS
              && (c.expiresAt.Some? ==> w.nowNanos / NANOS <= c.expiresAt.value)
              && (expectedMachineId != "" ==> c.machineId == expectedMachineId)
  {
    match w.decode(jwt)
    case None => (Some(Malformed), None)
    case Some(c) =>
      if c.quoteHash == "" then (Some(NoQuoteHash), None)
      else if c.quoteHash != w.quoteHash then (Some(WrongQuoteHash), None)
      else if c.timestamp.None? then (Some(NoTimestamp), None)
      else
        var diff := w.nowNanos - c.timestamp.value * NANOS;
        if diff < -WINDOW_NANOS || diff > WINDOW_NANOS then (Some(StaleTimestamp), None)
        else if c.expiresAt.Some? && w.nowNanos / NANOS > c.expiresAt.value then (Some(Expired), None)
        else if expectedMachineId != "" && c.machineId == "" then (Some(NoMachineId), None)
        else if expectedMachineId != "" && c.machineId != expectedMachineId then (Some(WrongMachineId), None)
        else (None, Some(c))
  }

  /** What a run of the protocol did: its result and the stage-2 requests it sent, in order. */
  datatype Outcome = Outcome(result: PocResult, sent: seq<Request>)

  /** What the client makes of one stage-2 reply: finish, or carry on with new partial signatures. */
  datatype Turn = Finish(result: PocResult) | Continue(sigs: map<string, string>)

  function TakeTurn(w: World, n: NonceEntry, reply: Reply, expectedMachineId: string): (t: Turn)
    ensures t.Finish? && t.result.Registered? ==> expectedMachineId == "" || t.result.machineId == expectedMachineId
  {
    match reply
    case NoReply => Finish(Err(Stage2Transport(n.peerUrl)))
    case Status(code, body) =>
      if code == 403 then Finish(NotRegistered)
      else if code != 200 then Finish(Err(Stage2Status(n.peerUrl, code)))
      else if body.None? then Finish(Err(Stage2Unparseable(n.peerUrl)))
      else if body.value.jwt != "" then
        var (err, claims) := VerifyClaims(w, body.value.jwt, expectedMachineId);
        if err.Some? then Finish(Err(JwtInvalid(err.value)))
        else if body.value.machineId != "" && body.value.machineId != claims.value.machineId then
          Finish(Err(WrapperDisagrees(n.peerUrl)))
        else if body.value.tag != "" && body.value.tag != claims.value.tag then
          Finish(Err(WrapperDisagrees(n.peerUrl)))
        else Finish(Registered(claims.value.machineId, claims.value.tag, body.value.jwt))
      else if body.value.sigs.None? then Finish(Err(Stage2Unparseable(n.peerUrl)))
      else Continue(body.value.sigs.value)
  }

  function RequestFor(n: NonceEntry, nonces: map<string, string>, sigs: map<string, string>): Request {
    Request(n.peerUrl, nonces, if |sigs| > 0 then Some(sigs) else None)
  }

  /** The signature chain from here on. */
  function Chain(w: World, todo: seq<NonceEntry>, nonces: map<string, string>, machineId: string, sigs: map<string, string>): Outcome {
    if todo == [] then Outcome(Err(NoFinalJwt), [])
    else
      var req := RequestFor(todo[0], nonces, sigs);
      match TakeTurn(w, todo[0], w.reply(req), machineId)
      case Finish(result) => Outcome(result, [req])
      case Continue(sigs') =>
        var rest := Chain(w, todo[1..], nonces, machineId, sigs');
        Outcome(rest.result, [req] + rest.sent)
  }

  lemma ChainStep(w: World, todo: seq<NonceEntry>, i: nat, nonces: map<string, string>, machineId: string, sigs: map<string, string>)
    requires i < |todo|
    ensures var req := RequestFor(todo[i], nonces, sigs);
            var turn := TakeTurn(w, todo[i], w.reply(req), machineId);
            && (turn.Finish? ==> Chain(w, todo[i..], nonces, machineId, sigs) == Outcome(turn.result, [req]))
            && (turn.Continue? ==>
                  Chain(w, todo[i..], nonces, machineId, sigs) ==
                  Outcome(Chain(w, todo[i + 1..], nonces, machineId, turn.sigs).result,
                          [req] + Chain(w, todo[i + 1..], nonces, machineId, turn.sigs).sent))
  {
    assert todo[i..][0] == todo[i] && todo[i..][1..] == todo[i + 1..];
  }

  method BuildNoncesMap(nonces: seq<NonceEntry>) returns (m: map<string, string>)
    ensures m == NoncesMap(nonces)
  {
    m := map[];
    for i := 0 to |nonces|
      invariant m == NoncesMap(nonces[..i])
    {
      m := m[nonces[i].moniker := nonces[i].nonce];
      assert nonces[..i + 1][..i] == nonces[..i];
    }
    assert nonces[..|nonces|] == nonces;
  }

  method ChainSignatures(w: World, nonces: seq<NonceEntry>, machineId: string) returns (o: Outcome)
    ensures o == Chain(w, nonces, NoncesMap(nonces), machineId, map[])
    ensures nonces != [] && DistinctMonikers(nonces) ==>
              && Forwards(w, nonces, o.sent)
              && Decided(w, w.reply(o.sent[|o.sent| - 1]), |o.sent| == |nonces|, machineId, o.result)
  {
    hide Chain, NoncesMap, TakeTurn, Forwards, Decided, DistinctMonikers;
    if nonces != [] && DistinctMonikers(nonces) {
      WholeChain(w, nonces, machineId);
    }
    var noncesMap := BuildNoncesMap(nonces);
    var partialSigs: map<string, string> := map[];
    var sent: seq<Request> := [];
    ghost var whole := Chain(w, nonces, noncesMap, machineId, map[]);
    assert nonces[0..] == nonces;
    for i := 0 to |nonces|
      invariant var rest := Chain(w, nonces[i..], noncesMap, machineId, partialSigs);
        whole == Outcome(rest.result, sent + rest.sent)
    {
      var req := RequestFor(nonces[i], noncesMap, partialSigs);
      ChainStep(w, nonces, i, noncesMap, machineId, partialSigs);
      var turn := TakeTurn(w, nonces[i], w.reply(req), machineId);
      sent := sent + [req];
      if turn.Finish? {
        return Outcome(turn.result, sent);
      }
      partialSigs := turn.sigs;
    }
    ChainEnd(w, nonces[|nonces|..], noncesMap, machineId, partialSigs);
    o := Outcome(Err(NoFinalJwt), sent);
  }

  lemma ChainEnd(w: World, todo: seq<NonceEntry>, nonces: map<string, string>, machineId: string, sigs: map<string, string>)
    requires todo == []
    ensures Chain(w, todo, nonces, machineId, sigs) == Outcome(Err(NoFinalJwt), [])
  {
  }

  lemma {:induction false} InsertLength(n: NonceEntry, s: seq<NonceEntry>)
    ensures |Insert(n, s)| == |s| + 1
  {
    if s != [] && !Less(n.peerUrl, s[0].peerUrl) {
      InsertLength(n, s[1..]);
    }
  }

  lemma {:induction false} SortLength(s: seq<NonceEntry>)
    ensures |SortByUrl(s)| == |s|
  {
    if s != [] {
      SortLength(s[1..]);
      InsertLength(s[0], SortByUrl(s[1..]));
    }
  }

  /** The run once stage 1 has gathered these nonces. */
  function AfterStage1(w: World, nonces: seq<NonceEntry>): Outcome {
    SortLength(nonces);
    var s := SortByUrl(nonces);
    if s == [] then Outcome(Crashed, [])
    else if MachineError(s, 0).Some? then Outcome(Err(MachineError(s, 0).value), [])
    else if MonikerError(s).Some? then Outcome(Err(MonikerError(s).value), [])
    else Chain(w, s, NoncesMap(s), s[0].machineId, map[])
  }

  /** The whole protocol for one order of arrival. */
  function Run(w: World, arrivals: seq<Collected>, quorum: int): Outcome {
    match Collect(arrivals, quorum, [], None)
    case Refused => Outcome(NotRegistered, [])
    case Short(e) => Outcome(Err(e), [])
    case Whitelisted(nonces) => AfterStage1(w, nonces)
  }

  method CheckQuote(w: World, answers: seq<(string, Answer)>, quorum: int) returns (o: Outcome)
    ensures o == Run(w, Arrivals(answers), quorum)
  {
    var arrivals := Arrivals(answers);
    var s := CollectNonces(arrivals, quorum);
    if s.Refused? {
      return Outcome(NotRegistered, []);
    }
    if s.Short? {
      return Outcome(Err(s.error), []);
    }
    SortLength(s.nonces);
    var nonces := SortByUrl(s.nonces);
    var err := CheckMachineIdConsistency(nonces);
    if err.Some? {
      return Outcome(Err(err.value), []);
    }
    err := CheckMonikerUniqueness(nonces);
    if err.Some? {
      return Outcome(Err(err.value), []);
    }
    if nonces == [] {
      return Outcome(Crashed, []);
    }
    o := ChainSignatures(w, nonces, nonces[0].machineId);
  }

  /**
   A registered result rests on a full quorum: that many stage-1 nonces, and never none, with
   pairwise distinct monikers and one nonempty machine id, which is the one in the result.
   */
  lemma RegisteredQuorum(w: World, arrivals: seq<Collected>, quorum: int)
    requires Run(w, arrivals, quorum).result.Registered?
    ensures var s := Collect(arrivals, quorum, [], None);
            && s.Whitelisted? && |s.nonces| == Needed(quorum) && s.nonces <= NoncesOf(arrivals)
            && var nonces := SortByUrl(s.nonces);
            && |nonces| == Needed(quorum) && DistinctMonikers(nonces)
            && forall n <- nonces :: n.machineId != "" && n.machineId == Run(w, arrivals, quorum).result.machineId
  {
    CollectedNonces(arrivals, quorum, [], None);
    assert [] + NoncesOf(arrivals) == NoncesOf(arrivals);
    var nonces := SortByUrl(Collect(arrivals, quorum, [], None).nonces);
    SortLength(Collect(arrivals, quorum, [], None).nonces);
    assert nonces[0].machineId != "";
    RegisteredMachine(w, nonces, NoncesMap(nonces), nonces[0].machineId, map[]);
  }

  lemma {:induction false} RegisteredMachine(w: World, todo: seq<NonceEntry>, nonces: map<string, string>, machineId: string, sigs: map<string, string>)
    requires machineId != ""
    ensures var r := Chain(w, todo, nonces, machineId, sigs).result; r.Registered? ==> r.machineId == machineId
  {
    if todo != [] {
      var turn := TakeTurn(w, todo[0], w.reply(RequestFor(todo[0], nonces, sigs)), machineId);
      if turn.Continue? {
        RegisteredMachine(w, todo[1..], nonces, machineId, turn.sigs);
      }
    }
  }

  // ---------------------------------------------------------------- what is sent, and what comes of it

  /** These partial signatures are what this reply hands on: none if it holds none. */
  ghost predicate HandsOn(reply: Reply, partialSigs: Option<map<string, string>>) {
    && reply.Status? && reply.code == 200 && reply.body.Some? && reply.body.value.jwt == "" && reply.body.value.sigs.Some?
    && partialSigs == if reply.body.value.sigs == Some(map[]) then None else reply.body.value.sigs
  }

  /** The map sends each moniker to its nonce, and nothing else. */
  ghost predicate MapsMonikers(m: map<string, string>, nonces: seq<NonceEntry>) {
    && (forall n <- nonces :: n.moniker in m && m[n.moniker] == n.nonce)
    && (forall k <- m :: exists n :: n in nonces && n.moniker == k)
  }

  /** One request each to the first of these peers in turn, each carrying on from the reply to the one before. */
  ghost predicate Forwards(w: World, nonces: seq<NonceEntry>, sent: seq<Request>) {
    && 0 < |sent| <= |nonces|
    && (forall i :: 0 <= i < |sent| ==> sent[i].url == nonces[i].peerUrl && MapsMonikers(sent[i].nonces, nonces))
    && sent[0].partialSigs == None
    && (forall i :: 0 < i < |sent| ==> HandsOn(w.reply(sent[i - 1]), sent[i].partialSigs))
  }

  /** The token of this reply passes every check, and the fields beside it do not contradict it. */
  ghost predicate Registers(w: World, reply: Reply, machineId: string, claims: Claims) {
    && reply.Status? && reply.code == 200 && reply.body.Some? && reply.body.value.jwt != ""
    && w.decode(reply.body.value.jwt) == Some(claims)
    && claims.quoteHash != "" && claims.quoteHash == w.quoteHash
    && claims.timestamp.Some? && -WINDOW_NANOS <= w.nowNanos - claims.timestamp.value * NANOS <= WINDOW_NANOS
    && (claims.expiresAt.Some? ==> w.nowNanos / NANOS <= claims.expiresAt.value)
    && (machineId != "" ==> claims.machineId == machineId)
    && reply.body.value.machineId in {"", claims.machineId} && reply.body.value.tag in {"", claims.tag}
  }

  /** The last reply decides. Partial signatures decide nothing, unless they come from the last peer. */
  ghost predicate Decided(w: World, reply: Reply, atLast: bool, machineId: string, result: PocResult) {
    match result
    case Registered(id, tag, jwt) =>
      exists claims :: Registers(w, reply, machineId, claims) && id == claims.machineId && tag == claims.tag && jwt == reply.body.value.jwt
    case NotRegistered => reply.Status? && reply.code == 403
    case Err(_) =>
      && !(reply.Status? && reply.code == 403) && (forall claims :: !Registers(w, reply, machineId, claims))
      && (forall sigs :: HandsOn(reply, sigs) ==> atLast)
    case Crashed => false
  }

  lemma {:induction false} NoncesMapped(nonces: seq<NonceEntry>)
    requires DistinctMonikers(nonces)
    ensures MapsMonikers(NoncesMap(nonces), nonces)
  {
    if nonces != [] {
      var init, last := nonces[..|nonces| - 1], nonces[|nonces| - 1];
      LastMoniker(nonces, init, last);
      NoncesMapped(init);
    }
  }

  lemma LastMoniker(nonces: seq<NonceEntry>, init: seq<NonceEntry>, last: NonceEntry)
    requires DistinctMonikers(nonces) && nonces == init + [last]
    ensures DistinctMonikers(init) && forall n <- init :: n.moniker != last.moniker
  {
    assert forall i :: 0 <= i < |init| ==> init[i] == nonces[i];
    assert nonces[|init|] == last;
  }

  lemma TurnDecides(w: World, n: NonceEntry, reply: Reply, machineId: string)
    ensures var turn := TakeTurn(w, n, reply, machineId);
            && (turn.Finish? ==> forall atLast :: Decided(w, reply, atLast, machineId, turn.result))
            && (turn.Continue? ==> HandsOn(reply, if turn.sigs == map[] then None else Some(turn.sigs)))
            && (turn.Continue? ==> forall e :: Decided(w, reply, true, machineId, Err(e)))
  {
    if reply.Status? && reply.body.Some? && w.decode(reply.body.value.jwt).Some? {
      var claims := w.decode(reply.body.value.jwt).value;
      var r := Registered(claims.machineId, claims.tag, reply.body.value.jwt);
      assert TakeTurn(w, n, reply, machineId) == Finish(r) <==> Registers(w, reply, machineId, claims);
    }
  }

  /** The run of a chain that has these signatures in hand. */
  lemma {:induction false} ChainForwards(w: World, nonces: seq<NonceEntry>, sent: seq<Request>, m: map<string, string>,
                                         machineId: string, sigs: map<string, string>)
    requires |sent| < |nonces| && MapsMonikers(m, nonces)
    requires if sent == [] then sigs == map[]
             else Forwards(w, nonces, sent) && HandsOn(w.reply(sent[|sent| - 1]), if sigs == map[] then None else Some(sigs))
    ensures var o := Chain(w, nonces[|sent|..], m, machineId, sigs);
            && Forwards(w, nonces, sent + o.sent)
            && o.sent != [] && Decided(w, w.reply(o.sent[|o.sent| - 1]), |sent + o.sent| == |nonces|, machineId, o.result)
    decreases |nonces| - |sent|
  {
    hide MapsMonikers, HandsOn, TakeTurn, Decided, Chain;
    var k := |sent|;
    var req := RequestFor(nonces[k], m, sigs);
    var next := sent + [req];
    var turn := TakeTurn(w, nonces[k], w.reply(req), machineId);
    ChainStep(w, nonces, k, m, machineId, sigs);
    TurnDecides(w, nonces[k], w.reply(req), machineId);
    assert Forwards(w, nonces, next);
    if turn.Continue? {
      if k + 1 < |nonces| {
        ChainForwards(w, nonces, next, m, machineId, turn.sigs);
        var rest := Chain(w, nonces[k + 1..], m, machineId, turn.sigs).sent;
        assert sent + ([req] + rest) == next + rest;
      } else {
        ChainEnd(w, nonces[k + 1..], m, machineId, turn.sigs);
        assert [req] + [] == [req];
      }
    }
  }

  lemma WholeChain(w: World, nonces: seq<NonceEntry>, machineId: string)
    requires nonces != [] && DistinctMonikers(nonces)
    ensures var o := Chain(w, nonces, NoncesMap(nonces), machineId, map[]);
            && Forwards(w, nonces, o.sent)
            && Decided(w, w.reply(o.sent[|o.sent| - 1]), |o.sent| == |nonces|, machineId, o.result)
  {
    hide Chain, Forwards, Decided, NoncesMap, DistinctMonikers;
    NoncesMapped(nonces);
    ChainForwards(w, nonces, [], NoncesMap(nonces), machineId, map[]);
    var o := Chain(w, nonces, NoncesMap(nonces), machineId, map[]);
    assert nonces[0..] == nonces && [] + o.sent == o.sent;
  }

  /** Every gathered nonce is the answer of the peer it names. */
  lemma {:induction false} GatheredAnswers(answers: seq<(string, Answer)>, n: NonceEntry)
    requires n in NoncesOf(Arrivals(answers))
    ensures exists i :: 0 <= i < |answers| && Answers(answers[i].0, answers[i].1, n)
  {
    var arrivals := Arrivals(answers);
    if arrivals[0] != Nonce(n) {
      assert arrivals[1..] == Arrivals(answers[1..]);
      GatheredAnswers(answers[1..], n);
      var i :| 0 <= i < |answers[1..]| && Answers(answers[1..][i].0, answers[1..][i].1, n);
      assert Answers(answers[i + 1].0, answers[i + 1].1, n);
    }
  }

  lemma AllAnswered(answers: seq<(string, Answer)>, gathered: seq<NonceEntry>, nonces: seq<NonceEntry>)
    requires gathered <= NoncesOf(Arrivals(answers)) && multiset(nonces) == multiset(gathered)
    ensures AnsweredBy(answers, nonces)
  {
    hide Answers, Arrivals, NoncesOf;
    forall n | n in nonces
      ensures exists i :: 0 <= i < |answers| && Answers(answers[i].0, answers[i].1, n)
    {
      assert n in multiset(nonces);
      GatheredAnswers(answers, n);
    }
  }

  ghost predicate AnsweredBy(answers: seq<(string, Answer)>, nonces: seq<NonceEntry>) {
    forall n <- nonces :: exists i :: 0 <= i < |answers| && Answers(answers[i].0, answers[i].1, n)
  }

  /** The peers were asked in this order, if their nonces are consistent, and the last reply decided. */
  ghost predicate Chained(w: World, nonces: seq<NonceEntry>, o: Outcome) {
    if OneMachine(nonces) && DistinctMonikers(nonces) then
      Forwards(w, nonces, o.sent) && Decided(w, w.reply(o.sent[|o.sent| - 1]), |o.sent| == |nonces|, nonces[0].machineId, o.result)
    else o.sent == [] && o.result.Err?
  }

  /**
   A refusal in time ends a run before anything is sent, and so does a missing quorum. A run with a
   quorum of consistent nonces asks their peers in the order of the URLs, each with all the nonces and
   with what the one before it signed; the last reply decides.
   */
  lemma RunForwards(w: World, answers: seq<(string, Answer)>, quorum: int)
    ensures var arrivals, k := Arrivals(answers), Needed(quorum);
            var o, got := Run(w, arrivals, quorum), NoncesOf(arrivals);
            if RefusedFirst(arrivals, k) then o == Outcome(NotRegistered, [])
            else if |got| < k then o.sent == [] && (o.result.Err? || o.result.Crashed?)
            else exists nonces :: ByUrl(nonces) && multiset(nonces) == multiset(got[..k]) && AnsweredBy(answers, nonces) && Chained(w, nonces, o)
  {
    hide AfterStage1, Chained, RefusedFirst, Arrivals, Collect, AnsweredBy, ByUrl;
    var arrivals := Arrivals(answers);
    var got := NoncesOf(arrivals);
    CollectIff(arrivals, quorum, [], None);
    assert [] + got == got;
    var s := Collect(arrivals, quorum, [], None);
    if s.Whitelisted? && Needed(quorum) <= |got| {
      var nonces := AfterForwards(w, s.nonces);
      AllAnswered(answers, s.nonces, nonces);
    } else if s.Whitelisted? {
      NothingGathered(w);
    }
  }

  lemma NothingGathered(w: World)
    ensures AfterStage1(w, []) == Outcome(Crashed, [])
  {
  }

  lemma AfterForwards(w: World, gathered: seq<NonceEntry>) returns (nonces: seq<NonceEntry>)
    requires gathered != []
    ensures ByUrl(nonces) && multiset(nonces) == multiset(gathered) && Chained(w, nonces, AfterStage1(w, gathered))
  {
    hide Chain, Forwards, Decided, ByUrl, MonikerError, NoncesMap, DistinctMonikers, SortByUrl;
    SortLength(gathered);
    SortOrders(gathered);
    nonces := SortByUrl(gathered);
    if OneMachine(nonces) && DistinctMonikers(nonces) {
      WholeChain(w, nonces, nonces[0].machineId);
    }
  }

  // ---------------------------------------------------------------- confluence

  /** The gathered nonces, as a bag, do not depend on the order of arrival. */
  lemma {:induction false} NoncesPermute(a: seq<Collected>, n: NonceEntry)
    ensures multiset(NoncesOf(a))[n] == multiset(a)[Nonce(n)]
  {
    if a != [] {
      NoncesPermute(a[1..], n);
      assert a == [a[0]] + a[1..];
    }
  }

  /**
   When the quorum is every peer and URLs are distinct, the outcome is the same for every order
   in which the stage-1 answers arrive: the class, the stage-2 requests, and everything but the
   message of a stage-1 failure.
   */
  lemma Confluence(w: World, a: seq<Collected>, b: seq<Collected>, quorum: int)
    requires 0 < quorum && |a| <= quorum && multiset(a) == multiset(b) && DistinctUrls(NoncesOf(a))
    ensures var r, r' := Run(w, a, quorum), Run(w, b, quorum);
            ClassOf(r.result) == ClassOf(r'.result) && r.sent == r'.sent
    ensures Collect(a, quorum, [], None).Whitelisted? ==> Run(w, a, quorum) == Run(w, b, quorum)
  {
    hide Collect, NoncesOf, AfterStage1, SortByUrl, DistinctUrls;
    SameMembers(a, b);
    CollectAll(a, quorum, [], None);
    CollectAll(b, quorum, [], None);
    var x, y := NoncesOf(a), NoncesOf(b);
    assert [] + x == x && [] + y == y;
    SameNonces(a, b);
    SortPermute(x, y);
    SameAfterStage1(w, x, y);
  }

  lemma SameMembers(a: seq<Collected>, b: seq<Collected>)
    requires multiset(a) == multiset(b)
    ensures |a| == |b| && (Forbidden in a <==> Forbidden in b)
  {
    assert |a| == |multiset(a)| == |multiset(b)| == |b|;
    assert Forbidden in a <==> Forbidden in multiset(a);
    assert Forbidden in b <==> Forbidden in multiset(b);
  }

  lemma SameAfterStage1(w: World, x: seq<NonceEntry>, y: seq<NonceEntry>)
    requires SortByUrl(x) == SortByUrl(y)
    ensures |x| == |y| && AfterStage1(w, x) == AfterStage1(w, y)
  {
    SortLength(x);
    SortLength(y);
  }

  lemma SortPermute(x: seq<NonceEntry>, y: seq<NonceEntry>)
    requires DistinctUrls(x) && multiset(x) == multiset(y)
    ensures SortByUrl(x) == SortByUrl(y)
  {
    DistinctPermute(x, y);
    SortSorted(x);
    SortSorted(y);
    SortedUnique(SortByUrl(x), SortByUrl(y));
  }

  lemma SameNonces(a: seq<Collected>, b: seq<Collected>)
    requires multiset(a) == multiset(b)
    ensures multiset(NoncesOf(a)) == multiset(NoncesOf(b))
  {
    forall n: NonceEntry
      ensures multiset(NoncesOf(a))[n] == multiset(NoncesOf(b))[n]
    {
      NoncesPermute(a, n);
      NoncesPermute(b, n);
    }
  }

  lemma {:induction false} DistinctPermute(x: seq<NonceEntry>, y: seq<NonceEntry>)
    requires DistinctUrls(x) && multiset(x) == multiset(y)
    ensures DistinctUrls(y)
  {
    forall i, j | 0 <= i < j < |y|
      ensures y[i].peerUrl != y[j].peerUrl
    {
      assert y[i] in multiset(x) && y[j] in multiset(x);
      if y[i].peerUrl == y[j].peerUrl {
        var p :| 0 <= p < |x| && x[p] == y[i];
        var q :| 0 <= q < |x| && x[q] == y[j];
        assert p == q;
        TwiceInBag(y, i, j);
        OnceInBag(x, p);
      }
    }
  }

  lemma TwiceInBag(y: seq<NonceEntry>, i: nat, j: nat)
    requires i < j < |y| && y[i] == y[j]
    ensures multiset(y)[y[i]] >= 2
  {
    assert y == y[..i] + [y[i]] + y[i + 1..j] + [y[j]] + y[j + 1..];
  }

  lemma OnceInBag(x: seq<NonceEntry>, p: nat)
    requires p < |x| && DistinctUrls(x)
    ensures multiset(x)[x[p]] == 1
  {
    assert x == x[..p] + [x[p]] + x[p + 1..];
    assert x[p] !in x[..p] && x[p] !in x[p + 1..];
  }

  // ---------------------------------------------------------------- which quorums ignore the order

  function Urls(answers: seq<(string, Answer)>): seq<string> {
    seq(|answers|, i requires 0 <= i < |answers| => answers[i].0)
  }

  ghost predicate DistinctPeers(peers: seq<string>) {
    forall i, j :: 0 <= i < j < |peers| ==> peers[i] != peers[j]
  }

  /** One answer of each peer, in the order of two arrivals. */
  ghost predicate Reordered(peers: seq<string>, a: seq<(string, Answer)>, b: seq<(string, Answer)>) {
    DistinctPeers(Urls(a)) && multiset(Urls(a)) == multiset(peers) && multiset(a) == multiset(b)
  }

  /** Whatever the peers answer, and whatever world stage 2 meets, the order of arrival does not change the class. */
  ghost predicate OrderIrrelevant(peers: seq<string>, quorum: int) {
    forall w: World, a, b :: Reordered(peers, a, b) ==>
      ClassOf(Run(w, Arrivals(a), quorum).result) == ClassOf(Run(w, Arrivals(b), quorum).result)
  }

  /** The order of arrival never matters exactly if every peer is needed, or there is only one. */
  lemma OrderIrrelevantIff(peers: seq<string>, quorum: int)
    requires DistinctPeers(peers)
    ensures OrderIrrelevant(peers, quorum) <==> quorum >= |peers| || |peers| <= 1
  {
    hide Run, ClassOf, Arrivals;
    if quorum >= |peers| || |peers| <= 1 {
      forall w: World, a, b | Reordered(peers, a, b)
        ensures ClassOf(Run(w, Arrivals(a), quorum).result) == ClassOf(Run(w, Arrivals(b), quorum).result)
      {
        Agree(w, peers, a, b, quorum);
      }
    } else {
      var k := Needed(quorum);
      var a, b := Accepting(peers[..k]) + Refusing(peers[k..]), Refusing(peers[k..]) + Accepting(peers[..k]);
      MixedAnswers(peers, k);
      assert Urls(a) == peers && multiset(a) == multiset(b);
      SmallQuorumDisagrees(peers, quorum, Silence());
    }
  }

  lemma Agree(w: World, peers: seq<string>, a: seq<(string, Answer)>, b: seq<(string, Answer)>, quorum: int)
    requires Reordered(peers, a, b) && (quorum >= |peers| || |peers| <= 1)
    ensures ClassOf(Run(w, Arrivals(a), quorum).result) == ClassOf(Run(w, Arrivals(b), quorum).result)
  {
    hide Run, ClassOf, Arrivals;
    assert |a| == |multiset(Urls(a))| == |multiset(peers)| == |peers|;
    assert |a| == |multiset(a)| == |multiset(b)| == |b|;
    if |peers| <= 1 {
      if a != [] {
        assert a[0] in multiset(b);
        assert a == b;
      }
    } else {
      ArrivalsPermute(a, b);
      ArrivalsLength(a);
      ArrivalsDistinct(a);
      Confluence(w, Arrivals(a), Arrivals(b), quorum);
    }
  }

  lemma {:induction false} ArrivalsPermute(a: seq<(string, Answer)>, b: seq<(string, Answer)>)
    requires multiset(a) == multiset(b)
    ensures multiset(Arrivals(a)) == multiset(Arrivals(b))
  {
    hide Classify, Arrivals;
    SameLength(a, b);
    if a != [] {
      var j := Occurrence(b, a[0]);
      Without(a, 0);
      Without(b, j);
      ArrivalsPermute(a[..0] + a[1..], b[..j] + b[j + 1..]);
    }
  }

  lemma SameLength(a: seq<(string, Answer)>, b: seq<(string, Answer)>)
    requires multiset(a) == multiset(b)
    ensures |a| == |b|
  {
    assert |a| == |multiset(a)| == |multiset(b)| == |b|;
  }

  lemma ArrivalsLength(a: seq<(string, Answer)>)
    ensures |Arrivals(a)| == |a|
  {
  }

  lemma Occurrence(b: seq<(string, Answer)>, x: (string, Answer)) returns (j: nat)
    requires x in multiset(b)
    ensures j < |b| && b[j] == x
  {
    j :| 0 <= j < |b| && b[j] == x;
  }

  lemma Without(b: seq<(string, Answer)>, j: nat)
    requires j < |b|
    ensures multiset(b[..j] + b[j + 1..]) == multiset(b) - multiset{b[j]}
    ensures multiset(Arrivals(b)) == multiset(Arrivals(b[..j] + b[j + 1..])) + multiset{Classify(b[j].0, b[j].1)}
  {
    hide Classify;
    var x, y := b[..j], b[j + 1..];
    assert b == x + [b[j]] + y;
    assert Arrivals(x + y) == Arrivals(x) + Arrivals(y);
    assert Arrivals(b) == Arrivals(x) + [Classify(b[j].0, b[j].1)] + Arrivals(y);
  }

  lemma {:induction false} ArrivalsDistinct(a: seq<(string, Answer)>)
    requires DistinctPeers(Urls(a))
    ensures DistinctUrls(NoncesOf(Arrivals(a))) && forall n <- NoncesOf(Arrivals(a)) :: n.peerUrl in Urls(a)
  {
    hide DistinctPeers, DistinctUrls, Arrivals, Urls;
    if a == [] {
      NoNonces(a);
    } else {
      PeersTail(a);
      NoncesStep(a);
      var c, rest := Classify(a[0].0, a[0].1), NoncesOf(Arrivals(a[1..]));
      ArrivalsDistinct(a[1..]);
      if c.Nonce? {
        DistinctCons(c.entry, rest);
      } else {
        assert [] + rest == rest;
      }
    }
  }

  lemma NoNonces(a: seq<(string, Answer)>)
    requires a == []
    ensures NoncesOf(Arrivals(a)) == [] && DistinctUrls([])
  {
  }

  lemma PeersTail(a: seq<(string, Answer)>)
    requires DistinctPeers(Urls(a)) && a != []
    ensures DistinctPeers(Urls(a[1..])) && a[0].0 in Urls(a) && forall u <- Urls(a[1..]) :: u != a[0].0 && u in Urls(a)
  {
    assert Urls(a)[0] == a[0].0 && Urls(a)[1..] == Urls(a[1..]);
  }

  lemma NoncesStep(a: seq<(string, Answer)>)
    requires a != []
    ensures var c := Classify(a[0].0, a[0].1);
            && (c.Nonce? ==> c.entry.peerUrl == a[0].0)
            && NoncesOf(Arrivals(a)) == (if c.Nonce? then [c.entry] else []) + NoncesOf(Arrivals(a[1..]))
  {
    assert Arrivals(a)[1..] == Arrivals(a[1..]);
  }

  lemma DistinctCons(n: NonceEntry, s: seq<NonceEntry>)
    requires DistinctUrls(s) && forall e <- s :: e.peerUrl != n.peerUrl
    ensures DistinctUrls([n] + s)
  {
  }

  /** A world in which no peer answers in stage 2. */
  function Silence(): World {
    World(_ => NoReply, _ => None, "", 0)
  }

  function Accepting(peers: seq<string>): seq<(string, Answer)> {
    seq(|peers|, i requires 0 <= i < |peers| => (peers[i], Http(200, Some(Stage1Body("moniker of " + peers[i], "nonce", "machine")))))
  }

  function Refusing(peers: seq<string>): seq<(string, Answer)> {
    seq(|peers|, i requires 0 <= i < |peers| => (peers[i], Http(403, None)))
  }

  lemma MixedAnswers(peers: seq<string>, k: nat)
    requires k <= |peers|
    ensures Urls(Accepting(peers[..k]) + Refusing(peers[k..])) == peers
  {
  }

  /** A quorum of acceptances and a refusal: refused if the refusal comes first, and else a failure of stage 2. */
  lemma SmallQuorumDisagrees(peers: seq<string>, quorum: int, w: World)
    requires Needed(quorum) < |peers| && forall r :: w.reply(r) == NoReply
    ensures var yes, no := Accepting(peers[..Needed(quorum)]), Refusing(peers[Needed(quorum)..]);
            && ClassOf(Run(w, Arrivals(yes + no), quorum).result) == IsError
            && ClassOf(Run(w, Arrivals(no + yes), quorum).result) == IsNotRegistered
  {
    var k := Needed(quorum);
    var yes, no := Accepting(peers[..k]), Refusing(peers[k..]);
    assert Arrivals(no + yes)[0] == Forbidden;
    assert forall i :: 0 <= i < k ==> Arrivals(yes + no)[i].Nonce?;
    CollectAccepted(Arrivals(yes + no), k, quorum, [], None);
    SilentRun(w, Collect(Arrivals(yes + no), quorum, [], None).nonces);
  }

  lemma {:induction false} CollectAccepted(arrivals: seq<Collected>, k: nat, quorum: int, got: seq<NonceEntry>, lastErr: Option<Error>)
    requires 0 < k <= |arrivals| && |got| + k >= quorum && forall i :: 0 <= i < k ==> arrivals[i].Nonce?
    ensures var s := Collect(arrivals, quorum, got, lastErr); s.Whitelisted? && s.nonces != []
  {
    if |got| + 1 < quorum {
      CollectAccepted(arrivals[1..], k - 1, quorum, got + [arrivals[0].entry], lastErr);
    }
  }

  lemma SilentRun(w: World, nonces: seq<NonceEntry>)
    requires nonces != [] && forall r :: w.reply(r) == NoReply
    ensures ClassOf(AfterStage1(w, nonces).result) == IsError
  {
    SortLength(nonces);
  }

  /** A quorum of zero ends in a panic exactly when no peer forbids or sends a nonce. */
  lemma {:induction false} CrashIff(w: World, arrivals: seq<Collected>, quorum: int)
    ensures Run(w, arrivals, quorum).result.Crashed? <==> quorum <= 0 && forall r <- arrivals :: r.Failed?
  {
    CollectedNonces(arrivals, quorum, [], None);
    if quorum <= 0 {
      ZeroQuorum(arrivals, quorum, None);
    }
    var s := Collect(arrivals, quorum, [], None);
    if s.Whitelisted? && s.nonces != [] {
      SortLength(s.nonces);
      var sorted := SortByUrl(s.nonces);
      ChainNeverCrashes(w, sorted, NoncesMap(sorted), sorted[0].machineId, map[]);
    }
  }

  lemma {:induction false} ZeroQuorum(arrivals: seq<Collected>, quorum: int, lastErr: Option<Error>)
    requires quorum <= 0
    ensures Collect(arrivals, quorum, [], lastErr) == Whitelisted([]) <==> forall r <- arrivals :: r.Failed?
  {
    if arrivals != [] {
      assert arrivals == [arrivals[0]] + arrivals[1..];
      if arrivals[0].Failed? {
        ZeroQuorum(arrivals[1..], quorum, Some(arrivals[0].error));
      }
    }
  }

  lemma {:induction false} ChainNeverCrashes(w: World, todo: seq<NonceEntry>, nonces: map<string, string>, machineId: string, sigs: map<string, string>)
    ensures !Chain(w, todo, nonces, machineId, sigs).result.Crashed?
  {
    if todo != [] {
      var turn := TakeTurn(w, todo[0], w.reply(RequestFor(todo[0], nonces, sigs)), machineId);
      if turn.Continue? {
        ChainNeverCrashes(w, todo[1..], nonces, machineId, turn.sigs);
      }
    }
  }
}
