/** Runs of the proxy: any sequence of requests, pinned or not, and what they leave in the log. */
module ProxyRun {
  import opened Bytes
  import opened Client
  import opened ProxyModel
  import opened ProxyLog
  import Report
  import TtlCache

  datatype Incoming = Direct(request: Request) | Pinned(pinned: PinnedRequest)

  function PairOf(req: Request): Key {
    TtlCache.Key(req.provider, req.model)
  }

  function KeyOf(r: Incoming): Key {
    match r
    case Direct(req) => PairOf(req)
    case Pinned(req) => TtlCache.Key(req.provider, req.model)
  }

  function TimeOf(r: Incoming): int {
    match r
    case Direct(req) => req.now
    case Pinned(req) => req.now
  }

  /** How a request begins, if this is what it finds cached for its pair. */
  function BeginOf(r: Incoming, hit: Option<Factors>): Event {
    Begin(KeyOf(r), hit)
  }

  predicate Unpinned(providers: map<string, Provider>, req: Request) {
    req.provider in providers && !providers[req.provider].pinned
  }

  ghost predicate Acceptable(providers: map<string, Provider>, r: Incoming) {
    match r
    case Direct(req) => Timely(req) && Unpinned(providers, req)
    case Pinned(req) => req.now > 0 && req.provider in providers && providers[req.provider].pinned
  }

  /** The request received the attestation this report was built from, having found no report cached. */
  predicate Brings(providers: map<string, Provider>, r: Incoming, hit: Option<Factors>, report: Option<Factors>) {
    match r
    case Direct(req) =>
      && hit.None? && req.attestation.Some? && req.provider in providers
      && report == Some(BuildReport(req.attestation.value, providers[req.provider]))
    case Pinned(req) => req.reply.Some? && req.reply.value.report.Some? && report == req.reply.value.report
  }

  /** An attestation received with this request proves the key for its pair. */
  ghost predicate ProvesFor(providers: map<string, Provider>, r: Incoming, c: (Key, string)) {
    r.Direct? && PairOf(r.request) == c.0 && r.request.provider in providers && Proves(r.request, providers[r.request.provider], c.1)
  }

  /** One of these requests does. */
  ghost predicate ProvedBy(providers: map<string, Provider>, rs: seq<Incoming>, c: (Key, string)) {
    exists i :: 0 <= i < |rs| && ProvesFor(providers, rs[i], c)
  }

  /** Every key checked by this point was checked before the run or is proved by one of these requests. */
  ghost predicate Known(providers: map<string, Provider>, log: Log, start: nat, rs: seq<Incoming>)
    requires start <= |log|
  {
    forall c <- CheckedIn(log) :: c in CheckedIn(log[..start]) || ProvedBy(providers, rs, c)
  }

  /** A report counts as the request's own exactly if the request brings it; otherwise it is the one found cached. */
  predicate Accounted(providers: map<string, Provider>, r: Incoming, hit: Option<Factors>, report: Option<Factors>, own: bool) {
    if own then Brings(providers, r, hit, report) else report == hit
  }

  /** The events that one request may add to the framing of the log after its Begin. */
  predicate Judged(providers: map<string, Provider>, r: Incoming, hit: Option<Factors>, tail: Log) {
    || tail == []
    || (|tail| == 1 && tail[0].Attested? && tail[0].key == KeyOf(r) && Accounted(providers, r, hit, tail[0].report, tail[0].own))
  }

  /** This part of the log is the request `r`, and every report it is judged by is accounted for. */
  ghost predicate Segment(providers: map<string, Provider>, log: Log, from: nat, to: nat, r: Incoming) {
    && OneRequest(log, from, to, KeyOf(r))
    && forall i :: from < i < to && log[i].Attested? ==> Accounted(providers, r, log[from].hit, log[i].report, log[i].own)
  }

  lemma NewSegment(providers: map<string, Provider>, before: Log, log: Log, r: Incoming, hit: Option<Factors>, tail: Log, force: bool)
    requires AllGood(log, providers, force) && Grew(before + [BeginOf(r, hit)], log)
    requires Only(log, Framing) == Only(before, Framing) + [BeginOf(r, hit)] + tail && Judged(providers, r, hit, tail)
    ensures |before| < |log| && log[|before|] == BeginOf(r, hit) && Segment(providers, log, |before|, |log|, r)
  {
    hide Only, AllGood, Accounted, OneRequest, Grew;
    RestFrames(before, log, BeginOf(r, hit), tail);
    BeginAt(before, log, BeginOf(r, hit));
    RequestAt(log, |before|, KeyOf(r), tail, providers, force);
  }

  lemma SegmentKept(providers: map<string, Provider>, log: Log, after: Log, from: nat, to: nat, r: Incoming)
    requires Segment(providers, log, from, to, r) && |log| <= |after| && after[..|log|] == log
    ensures Segment(providers, after, from, to, r)
  {
    hide Accounted;
    assert forall i :: 0 <= i < |log| ==> after[i] == after[..|log|][i];
  }

  /** The log of a run, request by request: `ends` says where each begins and the last one ends. */
  ghost predicate Run(providers: map<string, Provider>, log: Log, rs: seq<Incoming>, ends: seq<nat>) {
    && |ends| == |rs| + 1
    && (forall i :: 0 <= i < |rs| ==> Segment(providers, log, ends[i], ends[i + 1], rs[i]))
    && (forall i :: 0 <= i <= |rs| ==> ends[0] <= ends[i] <= |log| && Known(providers, log[..ends[i]], ends[0], rs[..i]))
  }

  lemma RunStart(providers: map<string, Provider>, log: Log, rs: seq<Incoming>)
    ensures Run(providers, log, rs[..0], [|log|])
  {
    assert log[..|log|] == log;
  }

  lemma RunStep(providers: map<string, Provider>, before: Log, log: Log, rs: seq<Incoming>, n: nat, ends: seq<nat>)
    requires n < |rs| && Run(providers, before, rs[..n], ends) && ends[n] == |before|
    requires |before| < |log| && log[..|before|] == before && Segment(providers, log, |before|, |log|, rs[n])
    requires forall c <- CheckedIn(log) :: c in CheckedIn(before) || ProvesFor(providers, rs[n], c)
    ensures Run(providers, log, rs[..n + 1], ends + [|log|])
  {
    hide Segment, Known;
    var ends' := ends + [|log|];
    forall i | 0 <= i < n + 1
      ensures Segment(providers, log, ends'[i], ends'[i + 1], rs[..n + 1][i])
    {
      if i < n {
        assert rs[..n][i] == rs[..n + 1][i];
        SegmentKept(providers, before, log, ends[i], ends[i + 1], rs[i]);
      }
    }
    forall i | 0 <= i <= n + 1
      ensures ends'[0] <= ends'[i] <= |log| && Known(providers, log[..ends'[i]], ends'[0], rs[..n + 1][..i])
    {
      if i <= n {
        assert log[..ends[i]] == before[..ends[i]] && rs[..n + 1][..i] == rs[..n][..i];
      } else {
        assert before[..ends[n]] == before && rs[..n][..n] == rs[..n] && log[..|log|] == log && rs[..n + 1][..n + 1] == rs[..n + 1];
        KnownStep(providers, before, log, ends[0], rs, n);
      }
    }
  }

  lemma KnownStep(providers: map<string, Provider>, before: Log, log: Log, start: nat, rs: seq<Incoming>, n: nat)
    requires n < |rs| && start <= |before| <= |log| && log[..|before|] == before && Known(providers, before, start, rs[..n])
    requires forall c <- CheckedIn(log) :: c in CheckedIn(before) || ProvesFor(providers, rs[n], c)
    ensures Known(providers, log, start, rs[..n + 1])
  {
    hide CheckedIn, ProvesFor;
    assert log[..start] == before[..start];
    forall c | c in CheckedIn(log)
      ensures c in CheckedIn(log[..start]) || ProvedBy(providers, rs[..n + 1], c)
    {
      if c in CheckedIn(before) && c !in CheckedIn(before[..start]) {
        var i :| 0 <= i < n && ProvesFor(providers, rs[..n][i], c);
        assert ProvesFor(providers, rs[..n + 1][i], c);
      } else if c !in CheckedIn(before) {
        assert ProvesFor(providers, rs[..n + 1][n], c);
      }
    }
  }

  lemma AllKnown(providers: map<string, Provider>, log: Log, rs: seq<Incoming>, ends: seq<nat>)
    requires Run(providers, log, rs, ends) && ends[|rs|] == |log|
    ensures forall c <- CheckedIn(log) :: c in CheckedIn(log[..ends[0]]) || ProvedBy(providers, rs, c)
  {
    hide Segment;
    assert log[..|log|] == log && rs[..|rs|] == rs;
    assert Known(providers, log[..ends[|rs|]], ends[0], rs[..|rs|]);
  }

  // ---------------------------------------------------------------- what a run promises

  /**
   What holds of every event of the `i`-th request of a run. A body posted for an E2EE provider is a
   ciphertext to a key checked before the run or proved by this or an earlier request. A response is
   relayed under a report the request was judged by, and a mark is lifted under a trusted report
   that the request brought itself.
   */
  ghost predicate Safe(providers: map<string, Provider>, force: bool, log: Log, start: nat, rs: seq<Incoming>, i: nat, from: nat, x: nat)
    requires i < |rs| && from < x < |log| && start <= |log|
  {
    match log[x]
    case Post(k, payload, _) =>
      NeedsE2ee(providers, k) ==>
        payload.Ciphertext? && ((k, payload.key) in CheckedIn(log[..start]) || ProvedBy(providers, rs[..i + 1], (k, payload.key)))
    case Response(k, report) =>
      && (report.Some? ==> exists j :: from < j < x && log[j].Attested? && log[j].report == report)
      && (NeedsE2ee(providers, k) ==>
            && k !in MarksIn(log[..x])
            && report.Some? && Report.BindingPassed(report.value) && (force || !Report.Blocked(report.value)))
    case Lift(k) =>
      && log[from].Begin?
      && exists report: Factors ::
           Brings(providers, rs[i], log[from].hit, Some(report)) && Report.BindingPassed(report) && (force || !Report.Blocked(report))
    case _ => true
  }

  ghost predicate AllSafe(providers: map<string, Provider>, force: bool, log: Log, rs: seq<Incoming>, ends: seq<nat>)
    requires Run(providers, log, rs, ends)
  {
    forall i: nat, x: nat :: i < |rs| && ends[i] < x < ends[i + 1] && x < |log| ==> Safe(providers, force, log, ends[0], rs, i, ends[i], x)
  }

  lemma RunAllSafe(providers: map<string, Provider>, force: bool, log: Log, rs: seq<Incoming>, ends: seq<nat>)
    requires AllGood(log, providers, force) && Run(providers, log, rs, ends)
    ensures AllSafe(providers, force, log, rs, ends)
  {
    hide AllGood, Safe, Segment, Known;
    forall i: nat, x: nat | i < |rs| && ends[i] < x < ends[i + 1] && x < |log|
      ensures Safe(providers, force, log, ends[0], rs, i, ends[i], x)
    {
      RunIsSafe(providers, force, log, rs, ends, i, x);
    }
  }

  lemma RunIsSafe(providers: map<string, Provider>, force: bool, log: Log, rs: seq<Incoming>, ends: seq<nat>, i: nat, x: nat)
    requires AllGood(log, providers, force) && Run(providers, log, rs, ends)
    requires i < |rs| && ends[i] < x < ends[i + 1]
    ensures ends[i + 1] <= |log| && ends[0] <= |log| && Safe(providers, force, log, ends[0], rs, i, ends[i], x)
  {
    var from, to := ends[i], ends[i + 1];
    assert Segment(providers, log, from, to, rs[i]);
    assert GoodAfter(log[..x], log[x], providers, force);
    match log[x] {
      case Post(k, payload, _) =>
        if NeedsE2ee(providers, k) {
          PostIsKnown(providers, force, log, rs, ends, i, x);
        }
      case Response(_, _) =>
        RespondedUnder(log, from, to, KeyOf(rs[i]), x, providers, force);
      case Lift(_) =>
        LiftedAfterFetch(log, from, to, KeyOf(rs[i]), x, providers, force);
      case _ =>
    }
  }

  lemma PostIsKnown(providers: map<string, Provider>, force: bool, log: Log, rs: seq<Incoming>, ends: seq<nat>, i: nat, x: nat)
    requires AllGood(log, providers, force) && Run(providers, log, rs, ends)
    requires i < |rs| && ends[i] < x < ends[i + 1] <= |log| && log[x].Post? && NeedsE2ee(providers, log[x].key)
    ensures log[x].payload.Ciphertext?
    ensures (log[x].key, log[x].payload.key) in CheckedIn(log[..ends[0]]) || ProvedBy(providers, rs[..i + 1], (log[x].key, log[x].payload.key))
  {
    hide Segment;
    PostedAfterCheck(log, x, providers, force);
    var upTo := log[..ends[i + 1]];
    var j :| 0 <= j < x && log[j] == Check(log[x].key, log[x].payload.key);
    assert upTo[j] == log[j];
    CheckedIff(upTo, log[x].key, log[x].payload.key);
    assert Known(providers, upTo, ends[0], rs[..i + 1]);
    assert upTo[..ends[0]] == log[..ends[0]];
  }

  // ---------------------------------------------------------------- what the clients of a run see

  /** The outputs of all requests, one after another. */
  function AllOutput(outs: seq<seq<Emit>>): seq<Emit> {
    if outs == [] then [] else AllOutput(outs[..|outs| - 1]) + outs[|outs| - 1]
  }

  /** Between these points of the log, a response is on record. */
  ghost predicate OnRecord(log: Log, from: nat, to: nat) {
    exists x :: from < x < to && x < |log| && log[x].Response?
  }

  /** Each client sees one error of the proxy's own, unless a response to its request is on record. */
  ghost predicate Answered(log: Log, ends: seq<nat>, outs: seq<seq<Emit>>) {
    |ends| == |outs| + 1 && forall i :: 0 <= i < |outs| ==> OneError(outs[i]) || OnRecord(log, ends[i], ends[i + 1])
  }

  lemma AnsweredStep(before: Log, log: Log, ends: seq<nat>, outs: seq<seq<Emit>>, out: seq<Emit>)
    requires Answered(before, ends, outs) && |before| <= |log| && log[..|before|] == before
    requires OneError(out) || OnRecord(log, ends[|outs|], |log|)
    ensures Answered(log, ends + [|log|], outs + [out])
  {
    var ends', outs' := ends + [|log|], outs + [out];
    forall i | 0 <= i < |outs'|
      ensures OneError(outs'[i]) || OnRecord(log, ends'[i], ends'[i + 1])
    {
      if i < |outs| && !OneError(outs[i]) {
        var x :| ends[i] < x < ends[i + 1] && x < |before| && before[x].Response?;
        assert log[x] == log[..|before|][x];
      }
    }
  }

  lemma AllOutputStep(outs: seq<seq<Emit>>, out: seq<Emit>)
    ensures AllOutput(outs + [out]) == AllOutput(outs) + out
  {
    assert (outs + [out])[..|outs|] == outs;
  }

  /** Every request found what the cache held for its pair as it began. */
  ghost predicate Found(log: Log, rs: seq<Incoming>, ends: seq<nat>, reports: seq<Reports>, ttl: int) {
    && |ends| == |rs| + 1 && |reports| == |rs| + 1
    && forall i :: 0 <= i < |rs| ==> ends[i] < |log| && log[ends[i]] == BeginOf(rs[i], Hit(reports[i], KeyOf(rs[i]), ttl, TimeOf(rs[i])))
  }

  lemma FoundStep(before: Log, log: Log, rs: seq<Incoming>, n: nat, ends: seq<nat>, reports: seq<Reports>, after: Reports, ttl: int)
    requires n < |rs| && Found(before, rs[..n], ends, reports, ttl) && ends[n] == |before| < |log| && log[..|before|] == before
    requires log[|before|] == BeginOf(rs[n], Hit(reports[n], KeyOf(rs[n]), ttl, TimeOf(rs[n])))
    ensures Found(log, rs[..n + 1], ends + [|log|], reports + [after], ttl)
  {
    hide Hit;
    var ends', reports' := ends + [|log|], reports + [after];
    forall i | 0 <= i < n + 1
      ensures ends'[i] < |log| && log[ends'[i]] == BeginOf(rs[..n + 1][i], Hit(reports'[i], KeyOf(rs[..n + 1][i]), ttl, TimeOf(rs[..n + 1][i])))
    {
      if i < n {
        assert rs[..n + 1][i] == rs[..n][i] && log[ends[i]] == log[..|before|][ends[i]];
      }
    }
  }

  lemma NothingYet(log: Log, rs: seq<Incoming>, reports: Reports, ttl: int)
    ensures Found(log, rs[..0], [|log|], [reports], ttl) && Answered(log, [|log|], []) && AllOutput([]) == []
  {
  }

  /** What one request added to the log holds a response, or its client saw an error. */
  lemma RecordedSince(before: Log, log: Log, k: Key, out: seq<Emit>)
    requires |before| < |log| && log[..|before|] == before && log[|before|].Begin?
    requires OneError(out) || Responded(Only(before, Sending), Only(log, Sending), k)
    ensures OneError(out) || OnRecord(log, |before|, |log|)
  {
    hide Only;
    if !OneError(out) {
      ResponseInLog(before, log, k);
    }
  }
}
