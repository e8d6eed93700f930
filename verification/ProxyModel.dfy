/**
 What the proxy is configured with, what one request receives from outside, and the value-level
 facts its state machine relies on.
 */
module ProxyModel {
  import opened Bytes
  import opened Client
  import FieldPolicy
  import Report
  import TtlCache
  import Relay
  import ChutesRelay

  type Key = TtlCache.Key
  type Factors = seq<Report.Factor>

  /** The factors other than the REPORTDATA binding. */
  type OtherFactors = fs: Factors | !Report.Has(fs, Report.REPORT_DATA)

  type Inapplicable = m: map<string, string> | Report.REPORT_DATA !in m

  datatype Provider = Provider(e2ee: bool, hasVerifier: bool, hasPool: bool, skipSigningKeyCache: bool,
                               usesTlsBinding: bool, pinned: bool, allowFail: set<string>, inapplicable: Inapplicable)

  // ---------------------------------------------------------------- attestation

  datatype Verdict = NoVerifier | Rejected | Accepted(detail: string)

  /** TEE evidence of one kind, with what checking its REPORTDATA says. */
  datatype Evidence = NoEvidence | Unreadable | Readable(verdict: Verdict)

  datatype Raw = Raw(signingKey: string, tlsKeyFp: string)

  datatype Attestation = Attestation(raw: Raw, tdx: Evidence, sev: Evidence, before: OtherFactors, after: Factors)

  predicate Accepts(e: Evidence) {
    e.Readable? && e.verdict.Accepted?
  }

  /** The provider's verifier accepted the signing key against the evidence relied on: TDX if it can be read. */
  predicate KeyChecked(a: Attestation, p: Provider) {
    p.hasVerifier && Accepts(if a.tdx.Readable? then a.tdx else a.sev)
  }

  /** Nothing was added to the checked pairs but, possibly, the key this attestation proves. */
  ghost predicate Learned(before: set<(Key, string)>, after: set<(Key, string)>, k: Key, p: Provider, a: Option<Attestation>) {
    before <= after && forall c <- after :: c in before || (a.Some? && KeyChecked(a.value, p) && c == (k, a.value.raw.signingKey))
  }

  function QuoteOf(e: Evidence, hasVerifier: bool): Report.Quote {
    match e
    case NoEvidence => Report.Absent
    case Unreadable => Report.Unparseable
    case Readable(v) =>
      if !hasVerifier || v.NoVerifier? then Report.Parsed(false, "")
      else if v.Rejected? then Report.Parsed(true, "")
      else Report.Parsed(false, v.detail)
  }

  function BuildReport(a: Attestation, p: Provider): Factors {
    Report.SettleAll(
      a.before + [Report.EvalReportData(QuoteOf(a.tdx, p.hasVerifier), QuoteOf(a.sev, p.hasVerifier), a.raw.signingKey)] + a.after,
      p.allowFail, p.inapplicable)
  }

  /** The report says the binding passed exactly if there is a key and the verifier accepted it on the evidence relied on, with a detail. */
  lemma PassedIff(a: Attestation, p: Provider)
    ensures Report.BindingPassed(BuildReport(a, p)) <==>
            && a.raw.signingKey != "" && p.hasVerifier
            && var e := if a.tdx.Readable? then a.tdx else a.sev; e.Readable? && e.verdict.Accepted? && e.verdict.detail != ""
  {
    Report.BindingPassedIff(a.before, a.after, QuoteOf(a.tdx, p.hasVerifier), QuoteOf(a.sev, p.hasVerifier),
                            a.raw.signingKey, p.allowFail, p.inapplicable);
  }

  /** A report that says the binding passed was built on a checked, nonempty key. */
  lemma PassedWasChecked(a: Attestation, p: Provider)
    requires Report.BindingPassed(BuildReport(a, p))
    ensures KeyChecked(a, p) && a.raw.signingKey != ""
  {
    PassedIff(a, p);
  }

  /** The lighter check of an attestation fetched only for its key: TDX evidence first, then SEV. */
  predicate FreshBound(a: Attestation, p: Provider) {
    var e := if a.tdx.NoEvidence? then a.sev else a.tdx;
    e.Readable? && (p.hasVerifier ==> e.verdict.Accepted?)
  }

  lemma FreshIsChecked(a: Attestation, p: Provider)
    requires FreshBound(a, p) && p.hasVerifier
    ensures KeyChecked(a, p)
    ensures if a.tdx.NoEvidence? then a.sev.Readable? && a.sev.verdict.Accepted? else a.tdx.Readable? && a.tdx.verdict.Accepted?
  {
  }

  // ---------------------------------------------------------------- what a request receives

  datatype Crypto =
    | FieldCrypto(session: FieldPolicy.Session)
    | ChutesCrypto(chutes: Option<ChutesRelay.ChutesSession>)   // None when key encapsulation left no session
    | EhbpCrypto

  /** An encrypted exchange: its identity, the key it was encrypted to, its decryption half. */
  datatype Handle = Handle(id: nat, key: string, crypto: Crypto)

  /** A response body, as each relay would read it. */
  datatype Body = Body(sse: seq<Relay.SseLine>, events: seq<ChutesRelay.ChutesLine>, blob: Option<string>, failed: bool)

  datatype EhbpView = MissingNonce | BadNonce | Undecryptable | Unwrapped(body: Body)

  datatype Reply =
    | NoReply(canceled: bool)
    | Reply(status: int, peerSpki: string, body: Body, ehbp: EhbpView)

  /** The outside world's part in one upstream attempt. */
  datatype Round = Round(urlResolves: bool, poolKey: Option<string>, refetched: Option<Attestation>, encrypted: Option<Crypto>,
                         canceled: bool, requestOk: bool, headersOk: bool, reply: Reply, spkiDomain: Option<string>, now: int)

  datatype Request = Request(provider: string, model: string, stream: bool, body: string, endpoint: FieldPolicy.Endpoint,
                             now: int, attestation: Option<Attestation>, rounds: (nat, nat) -> Round, end: int)

  ghost predicate Timely(req: Request) {
    req.now > 0 && req.end > 0 && forall i: nat, k: nat :: req.rounds(i, k).now > 0
  }

  /** Some attestation received with this request proves the key. */
  ghost predicate Proves(req: Request, p: Provider, key: string) {
    || (req.attestation.Some? && KeyChecked(req.attestation.value, p) && req.attestation.value.raw.signingKey == key)
    || exists i: nat, m: nat :: i < CHUTES_MAX_ATTEMPTS && m < CHUTES_MAX_ATTEMPTS && RoundProves(req.rounds(i, m), p, key)
  }

  predicate RoundProves(round: Round, p: Provider, key: string) {
    round.refetched.Some? && KeyChecked(round.refetched.value, p) && round.refetched.value.raw.signingKey == key
  }

  /** Every pair checked during the request is for its own key and proved by an attestation it received. */
  ghost predicate LearnedFrom(before: set<(Key, string)>, after: set<(Key, string)>, k: Key, p: Provider, req: Request) {
    before <= after && forall c <- after :: c in before || (c.0 == k && Proves(req, p, c.1))
  }

  lemma LearnedNothing(checked: set<(Key, string)>, k: Key, p: Provider, req: Request)
    ensures LearnedFrom(checked, checked, k, p, req)
  {
  }

  lemma LearnedFirst(before: set<(Key, string)>, after: set<(Key, string)>, k: Key, p: Provider, req: Request)
    requires Learned(before, after, k, p, req.attestation)
    ensures LearnedFrom(before, after, k, p, req)
  {
    hide KeyChecked;
  }

  lemma LearnedInRound(before: set<(Key, string)>, now: set<(Key, string)>, after: set<(Key, string)>, k: Key, p: Provider, req: Request,
                       i: nat, m: nat)
    requires i < CHUTES_MAX_ATTEMPTS && m < CHUTES_MAX_ATTEMPTS
    requires LearnedFrom(before, now, k, p, req) && Learned(now, after, k, p, req.rounds(i, m).refetched)
    ensures LearnedFrom(before, after, k, p, req)
  {
    hide KeyChecked;
    forall c | c in after && c !in now
      ensures c.0 == k && Proves(req, p, c.1)
    {
      assert RoundProves(req.rounds(i, m), p, c.1);
    }
  }

  lemma LearnedTwice(before: set<(Key, string)>, now: set<(Key, string)>, after: set<(Key, string)>, k: Key, p: Provider, req: Request)
    requires LearnedFrom(before, now, k, p, req) && LearnedFrom(now, after, k, p, req)
    ensures LearnedFrom(before, after, k, p, req)
  {
    hide Proves;
  }

  /** What a pinned handler brings back: the report only if it attested on this connection. */
  datatype PinnedReply = PinnedReply(report: Option<Factors>, signingKey: string, session: Option<FieldPolicy.Session>,
                                     status: int, body: Body)

  datatype PinnedRequest = PinnedRequest(provider: string, model: string, stream: bool, endpoint: FieldPolicy.Endpoint,
                                         spkiDomain: Option<string>, reply: Option<PinnedReply>, now: int)

  // ---------------------------------------------------------------- the invariant of the caches

  type Reports = TtlCache.Contents<Factors>
  type Keys = TtlCache.Contents<string>

  /** A report that lets E2EE requests through. */
  predicate Trusted(r: Factors, force: bool) {
    (force || !Report.Blocked(r)) && Report.BindingPassed(r)
  }

  /** The cached key, if usable, has been checked. */
  ghost predicate KeyOk(keys: Keys, checked: set<(Key, string)>, k: Key) {
    k in keys && keys[k].value != "" ==> (k, keys[k].value) in checked
  }

  predicate Verifies(providers: map<string, Provider>, k: Key) {
    k.provider in providers && providers[k.provider].hasVerifier
  }

  /** Connection-pinned providers verify inside their own handler. */
  predicate IsPinned(providers: map<string, Provider>, k: Key) {
    k.provider in providers && providers[k.provider].pinned
  }

  /** A trusted report of an unpinned provider. */
  predicate Vouches(k: Key, r: Factors, providers: map<string, Provider>, force: bool) {
    !IsPinned(providers, k) && Trusted(r, force)
  }

  /** The inductive invariant: a trusted cached report comes with a checked key. */
  ghost predicate Bound(reports: Reports, keys: Keys, checked: set<(Key, string)>, providers: map<string, Provider>, force: bool) {
    forall k <- reports :: Vouches(k, reports[k].value, providers, force) ==> KeyOk(keys, checked, k) && Verifies(providers, k)
  }

  /** What a lookup of the pair finds. */
  function Hit(reports: Reports, k: Key, ttl: int, now: int): Option<Factors> {
    if k in reports && !TtlCache.Expired(reports[k], ttl, now) then Some(reports[k].value) else None
  }

  /** `m'` is `m` with `k` written and possibly other entries dropped. */
  ghost predicate Wrote<V>(m: TtlCache.Contents<V>, m': TtlCache.Contents<V>, k: Key, v: V) {
    && k in m' && m'[k].value == v
    && forall j <- m' :: j == k || (j in m && m'[j] == m[j])
  }

  lemma StoredWrites<V>(m: TtlCache.Contents<V>, m': TtlCache.Contents<V>, k: Key, v: V, now: int, ttl: int)
    requires TtlCache.Stored(m, m', k, v, now, ttl)
    ensures Wrote(m, m', k, v) && m'[k] == TtlCache.Entry(v, now)
    ensures k in m ==> m' == m[k := TtlCache.Entry(v, now)]
  {
  }

  lemma KeyWritten(keys: Keys, keys': Keys, k: Key, v: string, checked: set<(Key, string)>, checked': set<(Key, string)>, j: Key)
    requires Wrote(keys, keys', k, v) && checked <= checked' && (v != "" && j == k ==> (k, v) in checked')
    requires KeyOk(keys, checked, j) || j == k
    ensures KeyOk(keys', checked', j)
  {
  }

  /** Writing a checked key, or any key for which no trusted report is held, keeps the invariant. */
  lemma BoundAfterKey(reports: Reports, keys: Keys, keys': Keys, k: Key, v: string, checked: set<(Key, string)>,
                      providers: map<string, Provider>, force: bool)
    requires Wrote(keys, keys', k, v)
    requires BoundBut(k, reports, keys, checked, providers, force)
    requires k in reports && Vouches(k, reports[k].value, providers, force) ==> Verifies(providers, k) && (v != "" ==> (k, v) in checked)
    ensures Bound(reports, keys', checked, providers, force)
  {
    hide Vouches;
    forall j | j in reports && Vouches(j, reports[j].value, providers, force)
      ensures KeyOk(keys', checked, j)
    {
      KeyWritten(keys, keys', k, v, checked, checked, j);
    }
  }

  /** The invariant away from `k`. */
  ghost predicate BoundBut(k: Key, reports: Reports, keys: Keys, checked: set<(Key, string)>, providers: map<string, Provider>, force: bool) {
    forall j <- reports :: j != k && Vouches(j, reports[j].value, providers, force) ==> KeyOk(keys, checked, j) && Verifies(providers, j)
  }

  lemma BoundIsBoundBut(k: Key, reports: Reports, keys: Keys, checked: set<(Key, string)>, providers: map<string, Provider>, force: bool)
    requires Bound(reports, keys, checked, providers, force)
    ensures BoundBut(k, reports, keys, checked, providers, force)
  {
  }

  lemma BoundAfterReport(reports: Reports, reports': Reports, k: Key, r: Factors, keys: Keys, checked: set<(Key, string)>,
                         checked': set<(Key, string)>, providers: map<string, Provider>, force: bool)
    requires Bound(reports, keys, checked, providers, force) && Wrote(reports, reports', k, r) && checked <= checked'
    ensures BoundBut(k, reports', keys, checked', providers, force)
    ensures (Vouches(k, r, providers, force) ==> KeyOk(keys, checked', k) && Verifies(providers, k)) ==> Bound(reports', keys, checked', providers, force)
  {
    hide Vouches;
  }

  /** Forgetting entries keeps the invariant, as does checking more keys. */
  lemma BoundAfterForgetting(reports: Reports, reports': Reports, keys: Keys, keys': Keys, checked: set<(Key, string)>,
                             checked': set<(Key, string)>, providers: map<string, Provider>, force: bool)
    requires Bound(reports, keys, checked, providers, force) && checked <= checked'
    requires forall j <- reports' :: j in reports && reports'[j] == reports[j]
    requires forall j <- keys' :: j in keys && keys'[j] == keys[j]
    ensures Bound(reports', keys', checked', providers, force)
  {
    hide Vouches;
  }

  // ---------------------------------------------------------------- which key a body is encrypted to

  /** The key reused on a cache hit, if any: a pool key equal to the cached one, or the cached one. */
  function Reused(cached: Option<string>, p: Provider, round: Round): Option<string> {
    if p.hasPool then
      if cached.Some? && round.poolKey == cached then cached else None
    else if !p.skipSigningKeyCache then cached
    else None
  }

  /** The key for a body: the initial attestation's, a reused one, or one fetched and checked now. */
  function ChosenKey(p: Provider, raw: Option<Raw>, cached: Option<string>, round: Round): Option<string> {
    if raw.Some? then Some(raw.value.signingKey)
    else if Reused(cached, p, round).Some? then Reused(cached, p, round)
    else if round.refetched.Some? && FreshBound(round.refetched.value, p) then Some(round.refetched.value.raw.signingKey)
    else None
  }

  /**
   Without an attestation of its own, a body is encrypted to the cached key, which for a pool has to be the key
   of the instance at hand, or to the key of an attestation fetched now whose evidence the verifier accepted.
   */
  lemma ChosenIs(p: Provider, cached: Option<string>, round: Round, key: string)
    requires p.hasVerifier && ChosenKey(p, None, cached, round) == Some(key)
    ensures || (cached == Some(key) && if p.hasPool then round.poolKey == Some(key) else !p.skipSigningKeyCache)
            || (&& round.refetched.Some? && round.refetched.value.raw.signingKey == key
                && var a := round.refetched.value;
                   if a.tdx.NoEvidence? then a.sev.Readable? && a.sev.verdict.Accepted? else a.tdx.Readable? && a.tdx.verdict.Accepted?)
  {
  }

  /** Whether a body can be made: without active E2EE, only for a provider that does not need it. */
  predicate Builds(p: Provider, e2eeActive: bool, raw: Option<Raw>, cached: Option<string>, round: Round) {
    if e2eeActive then
      var key := ChosenKey(p, raw, cached, round);
      key.Some? && key.value != "" && round.encrypted.Some?
    else !p.e2ee
  }

  predicate Posts(p: Provider, e2eeActive: bool, raw: Option<Raw>, cached: Option<string>, round: Round) {
    Builds(p, e2eeActive, raw, cached, round) && round.requestOk && round.headersOk
  }

  /** The live peer is the attested one, where that is checked. */
  predicate PeerOk(p: Provider, raw: Option<Raw>, reply: Reply) {
    reply.Reply? && p.usesTlsBinding && raw.Some? && raw.value.tlsKeyFp != "" ==> reply.peerSpki == raw.value.tlsKeyFp
  }

  predicate ChutesRetryable(reply: Reply) {
    match reply
    case NoReply(canceled) => !canceled
    case Reply(status, _, _, _) => status in {500, 502, 503, 504}
  }

  predicate IsChutesE2ee(p: Provider, e2eeActive: bool) {
    e2eeActive && p.hasPool && p.skipSigningKeyCache
  }

  const CHUTES_MAX_ATTEMPTS: nat := 3

  /** Both loops make this many attempts: relay attempts, and upstream attempts within each. */
  function Attempts(p: Provider, e2eeActive: bool): nat {
    if IsChutesE2ee(p, e2eeActive) then CHUTES_MAX_ATTEMPTS else 1
  }

  // ---------------------------------------------------------------- what the upstream loop comes to

  /** What the key cache holds for the pair. */
  type Slot = Option<TtlCache.Entry<string>>

  function SlotOf(keys: Keys, k: Key): Slot {
    if k in keys then Some(keys[k]) else None
  }

  /** What a lookup finds in it. */
  function Usable(slot: Slot, ttl: int, now: int): Option<string> {
    if slot.Some? && !TtlCache.Expired(slot.value, ttl, now) then Some(slot.value.value) else None
  }

  /** The cache after a body was built, which may have fetched a key. */
  function SlotBuilt(p: Provider, e2eeActive: bool, raw: Option<Raw>, slot: Slot, ttl: int, round: Round): Slot {
    if e2eeActive && raw.None? && Reused(Usable(slot, ttl, round.now), p, round).None?
       && round.refetched.Some? && FreshBound(round.refetched.value, p)
    then Some(TtlCache.Entry(round.refetched.value.raw.signingKey, round.now))
    else slot
  }

  /** How one upstream attempt ends: another is made, the request fails, or a reply is handed back. */
  datatype Try = Retried | Spent | Back

  /** `freshRaw` is `raw` in the first attempt of a roundtrip and nothing after it. */
  function TryEnd(p: Provider, e2eeActive: bool, raw: Option<Raw>, freshRaw: Option<Raw>, last: bool, cached: Option<string>, round: Round): Try {
    if !Builds(p, e2eeActive, freshRaw, cached, round) then if !last && !round.canceled then Retried else Spent
    else if !round.requestOk || !round.headersOk || !PeerOk(p, raw, round.reply) then Spent
    else if !last && ChutesRetryable(round.reply) then Retried
    else if round.reply.NoReply? then Spent
    else Back
  }

  /** The cache after one attempt; a peer other than the attested one empties it. */
  function SlotAfter(p: Provider, e2eeActive: bool, raw: Option<Raw>, freshRaw: Option<Raw>, slot: Slot, ttl: int, round: Round): Slot {
    if Posts(p, e2eeActive, freshRaw, Usable(slot, ttl, round.now), round) && !PeerOk(p, raw, round.reply) && round.reply.peerSpki != ""
    then None
    else SlotBuilt(p, e2eeActive, freshRaw, slot, ttl, round)
  }

  /** The upstream attempts of relay attempt `n` from attempt `m` on: which reply comes back, and the cache then. */
  function Upstream(p: Provider, e2eeActive: bool, raw: Option<Raw>, slot: Slot, ttl: int, req: Request, n: nat, m: nat): (Option<nat>, Slot)
    decreases CHUTES_MAX_ATTEMPTS - m
  {
    if m >= Attempts(p, e2eeActive) then (None, slot)
    else
      var round, freshRaw := req.rounds(n, m), if m == 0 then raw else None;
      var slot' := SlotAfter(p, e2eeActive, raw, freshRaw, slot, ttl, round);
      match TryEnd(p, e2eeActive, raw, freshRaw, m + 1 == Attempts(p, e2eeActive), Usable(slot, ttl, round.now), round)
      case Retried => Upstream(p, e2eeActive, raw, slot', ttl, req, n, m + 1)
      case Spent => (None, slot')
      case Back => (Some(m), slot')
  }

  /**
   Posting again: only for Chutes, up to its last attempt, and only where the peer did not answer, without the
   request being canceled, or answered with one of four server errors.
   */
  lemma RetriedIff(p: Provider, e2eeActive: bool, raw: Option<Raw>, slot: Slot, ttl: int, req: Request, n: nat, m: nat)
    requires m < Attempts(p, e2eeActive)
    requires var round := req.rounds(n, m); Posts(p, e2eeActive, if m == 0 then raw else None, Usable(slot, ttl, round.now), round)
    requires var reply := req.rounds(n, m).reply;
             reply.Reply? && p.usesTlsBinding && raw.Some? && raw.value.tlsKeyFp != "" ==> reply.peerSpki == raw.value.tlsKeyFp
    ensures var round, freshRaw := req.rounds(n, m), if m == 0 then raw else None;
            var heard := Upstream(p, e2eeActive, raw, slot, ttl, req, n, m);
            var slot' := SlotBuilt(p, e2eeActive, freshRaw, slot, ttl, round);
            if e2eeActive && p.hasPool && p.skipSigningKeyCache && m < 2
               && (round.reply == NoReply(false) || (round.reply.Reply? && round.reply.status in {500, 502, 503, 504}))
            then heard == Upstream(p, e2eeActive, raw, slot', ttl, req, n, m + 1)
            else heard == (if round.reply.Reply? then Some(m) else None, slot')
  {
    hide Builds, SlotBuilt;
  }

  /** Where no body can be made, Chutes tries again unless the request is canceled or it was the last attempt. */
  lemma UnbuiltIff(p: Provider, e2eeActive: bool, raw: Option<Raw>, slot: Slot, ttl: int, req: Request, n: nat, m: nat)
    requires m < Attempts(p, e2eeActive)
    requires var round := req.rounds(n, m); !Builds(p, e2eeActive, if m == 0 then raw else None, Usable(slot, ttl, round.now), round)
    ensures var round, freshRaw := req.rounds(n, m), if m == 0 then raw else None;
            var slot' := SlotBuilt(p, e2eeActive, freshRaw, slot, ttl, round);
            Upstream(p, e2eeActive, raw, slot, ttl, req, n, m) ==
            if e2eeActive && p.hasPool && p.skipSigningKeyCache && m < 2 && !round.canceled
            then Upstream(p, e2eeActive, raw, slot', ttl, req, n, m + 1) else (None, slot')
  {
    hide Builds, SlotBuilt;
  }

  /** Meeting another peer ends the roundtrip; one that names itself costs the cached key as well. */
  lemma OtherPeerEnds(p: Provider, e2eeActive: bool, raw: Option<Raw>, slot: Slot, ttl: int, req: Request, n: nat, m: nat)
    requires m < Attempts(p, e2eeActive)
    requires var round := req.rounds(n, m);
             && Posts(p, e2eeActive, if m == 0 then raw else None, Usable(slot, ttl, round.now), round)
             && round.reply.Reply? && p.usesTlsBinding && raw.Some? && raw.value.tlsKeyFp != "" && round.reply.peerSpki != raw.value.tlsKeyFp
    ensures var (heard, slot') := Upstream(p, e2eeActive, raw, slot, ttl, req, n, m);
            heard == None && (req.rounds(n, m).reply.peerSpki != "" ==> slot' == None)
  {
    hide Builds, SlotBuilt;
  }

  /** A reply that comes back is a reply of the attested peer. */
  lemma {:induction false} BackIsAttested(p: Provider, e2eeActive: bool, raw: Option<Raw>, slot: Slot, ttl: int, req: Request, n: nat, m: nat)
    ensures var heard := Upstream(p, e2eeActive, raw, slot, ttl, req, n, m).0;
            heard.Some? ==>
              && req.rounds(n, heard.value).reply.Reply?
              && (p.usesTlsBinding && raw.Some? && raw.value.tlsKeyFp != "" ==>
                    req.rounds(n, heard.value).reply.peerSpki == raw.value.tlsKeyFp)
    decreases CHUTES_MAX_ATTEMPTS - m
  {
    hide Builds, SlotAfter, ChutesRetryable;
    if m < Attempts(p, e2eeActive) {
      var round, freshRaw := req.rounds(n, m), if m == 0 then raw else None;
      BackIsAttested(p, e2eeActive, raw, SlotAfter(p, e2eeActive, raw, freshRaw, slot, ttl, round), ttl, req, n, m + 1);
    }
  }

  function RoundtripEnd(p: Provider, e2eeActive: bool, raw: Option<Raw>, slot: Slot, ttl: int, req: Request, n: nat): (Option<nat>, Slot) {
    if !req.rounds(n, 0).urlResolves then (None, slot) else Upstream(p, e2eeActive, raw, slot, ttl, req, n, 0)
  }

  // ---------------------------------------------------------------- how a reply is read

  /** A session a relay can read with: missing Chutes sessions and EHBP are dealt with before. */
  predicate Relayable(crypto: Option<Crypto>) {
    match crypto
    case Some(ChutesCrypto(c)) => c.Some?
    case Some(EhbpCrypto) => false
    case _ => true
  }

  /** The relay chosen for a session and a mode, and what it writes. */
  ghost predicate RelayAnswers(crypto: Option<Crypto>, body: Body, stream: bool, endpoint: FieldPolicy.Endpoint, canFlush: bool,
                               out: seq<Emit>, outcome: Outcome)
    requires Relayable(crypto)
  {
    if stream && !canFlush then out == [HttpError(500, "streaming not supported")] && outcome == RelayFailed
    else
      match crypto
      case Some(ChutesCrypto(c)) =>
        if stream then (out, outcome) == ChutesRelay.Run(body.events, body.failed, ChutesRelay.START, c.value)
        else
          (match body.blob
           case None => out == [HttpError(502, "response read failed")] && outcome == RelayFailed
           case Some(b) =>
             match c.value.openBlob(b)
             case None => out == [] && outcome == DecryptionFailed
             case Some(text) => out == [Header("application/json"), Text(text)] && outcome == Relayed)
      case Some(FieldCrypto(s)) =>
        if stream then (out, outcome) == Relay.StreamOutput(body.sse, body.failed, Some(s), endpoint)
        else Relay.ReassembledOutput(body.sse, body.failed, s, endpoint, out, outcome)
      case None =>
        if stream then (out, outcome) == Relay.StreamOutput(body.sse, body.failed, None, endpoint)
        else
          match body.blob
          case None => out == [HttpError(502, "failed to read upstream response")] && outcome == RelayFailed
          case Some(b) => out == [Header("application/json"), Text(b)] && outcome == Relayed
  }

  /** How the relay of a body ends. */
  ghost function RelayEnd(crypto: Option<Crypto>, body: Body, stream: bool, endpoint: FieldPolicy.Endpoint, canFlush: bool): Outcome
    requires Relayable(crypto)
  {
    if stream && !canFlush then RelayFailed
    else
      match crypto
      case Some(ChutesCrypto(c)) =>
        if stream then ChutesRelay.Run(body.events, body.failed, ChutesRelay.START, c.value).1
        else if body.blob.None? then RelayFailed
        else if c.value.openBlob(body.blob.value).None? then DecryptionFailed else Relayed
      case Some(FieldCrypto(s)) =>
        if stream then Relay.StreamOutput(body.sse, body.failed, Some(s), endpoint).1
        else if Relay.Reassembles(body.sse, body.failed, s, endpoint) then Relayed else DecryptionFailed
      case None =>
        if stream then Relay.StreamOutput(body.sse, body.failed, None, endpoint).1
        else if body.blob.None? then RelayFailed else Relayed
  }

  lemma EndOfAnswer(crypto: Option<Crypto>, body: Body, stream: bool, endpoint: FieldPolicy.Endpoint, canFlush: bool,
                    out: seq<Emit>, outcome: Outcome)
    requires Relayable(crypto) && RelayAnswers(crypto, body, stream, endpoint, canFlush, out, outcome)
    ensures outcome == RelayEnd(crypto, body, stream, endpoint, canFlush)
  {
    hide Relay.StreamOutput, ChutesRelay.Run, Relay.Fold, Relay.CanComplete, Relay.Completes;
  }

  /**
   Reading without a session, as an unwrapped EHBP body is read, never ends in a decryption
   failure: whatever goes wrong inside is a failed relay.
   */
  lemma PlainNeverFailsToDecrypt(body: Body, stream: bool, endpoint: FieldPolicy.Endpoint, canFlush: bool)
    ensures RelayEnd(None, body, stream, endpoint, canFlush) != DecryptionFailed
  {
    PlainLines(body.sse, body.failed, endpoint);
  }

  lemma {:induction false} PlainLines(lines: seq<Relay.SseLine>, failed: bool, endpoint: FieldPolicy.Endpoint)
    ensures Relay.LinesOutput(lines, failed, None, endpoint).1 != DecryptionFailed
    decreases lines
  {
    if lines != [] {
      PlainLines(lines[1..], failed, endpoint);
    }
  }

  /** A relay that ends in a decryption failure without having written anything. */
  ghost predicate FailsSilently(crypto: Option<Crypto>, body: Body, stream: bool) {
    && crypto.Some? && crypto.value.ChutesCrypto? && crypto.value.chutes.Some?
    && var c := crypto.value.chutes.value;
       if stream then ChutesRelay.Run(body.events, body.failed, ChutesRelay.START, c).0 == []
       else body.blob.Some? && c.openBlob(body.blob.value).None?
  }

  lemma SilentAnswer(crypto: Option<Crypto>, body: Body, stream: bool, endpoint: FieldPolicy.Endpoint, canFlush: bool,
                     out: seq<Emit>, outcome: Outcome)
    requires Relayable(crypto) && RelayAnswers(crypto, body, stream, endpoint, canFlush, out, outcome) && outcome == DecryptionFailed
    ensures out == [] <==> FailsSilently(crypto, body, stream)
  {
    hide ChutesRelay.Run, Relay.Fold, Relay.CanComplete, Relay.Completes, Relay.LinesOutput;
    if crypto.None? {
      EndOfAnswer(crypto, body, stream, endpoint, canFlush, out, outcome);
      PlainNeverFailsToDecrypt(body, stream, endpoint, canFlush);
    }
  }

  /**
   What becomes of a request: it is served to the end, its EHBP response does not unwrap, its relay
   fails to decrypt, or it fails otherwise. TryAgain is for attempts that another one follows.
   */
  datatype Fate = TryAgain | Served | Unwrappable | Undecrypted | Lost

  ghost function ReplyFate(crypto: Option<Crypto>, reply: Reply, stream: bool, endpoint: FieldPolicy.Endpoint, canFlush: bool, last: bool): Fate {
    if reply.NoReply? || reply.status != 200 then Lost
    else
      match crypto
      case Some(EhbpCrypto) =>
        if !reply.ehbp.Unwrapped? then Unwrappable
        else if RelayEnd(None, reply.ehbp.body, stream, endpoint, canFlush) == Relayed then Served
        else Lost
      case _ =>
        if !Relayable(crypto) then if last then Lost else TryAgain
        else
          match RelayEnd(crypto, reply.body, stream, endpoint, canFlush)
          case Relayed => Served
          case RelayFailed => Lost
          case DecryptionFailed => if !last && FailsSilently(crypto, reply.body, stream) then TryAgain else Undecrypted
  }

  /** What a relay attempt hears from its upstream: nothing, or a reply and the session to read it with. */
  datatype Heard = Nothing | Heard(crypto: Option<Crypto>, reply: Reply)

  function HeardIn(p: Provider, e2eeActive: bool, raw: Option<Raw>, slot: Slot, ttl: int, req: Request, n: nat): Heard {
    var m := RoundtripEnd(p, e2eeActive, if n > 0 then None else raw, slot, ttl, req, n).0;
    if m.None? then Nothing
    else Heard(if e2eeActive then req.rounds(n, m.value).encrypted else None, req.rounds(n, m.value).reply)
  }

  ghost function FateOfHeard(h: Heard, req: Request, canFlush: bool, last: bool): Fate {
    match h
    case Nothing => if last then Lost else TryAgain
    case Heard(crypto, reply) => ReplyFate(crypto, reply, req.stream, req.endpoint, canFlush, last)
  }

  /** Relay attempt `n`: its fate, and the key cache if another attempt follows. */
  ghost function AttemptFate(p: Provider, e2eeActive: bool, raw: Option<Raw>, slot: Slot, ttl: int, req: Request, canFlush: bool, n: nat): (Fate, Slot) {
    (FateOfHeard(HeardIn(p, e2eeActive, raw, slot, ttl, req, n), req, canFlush, n + 1 == Attempts(p, e2eeActive)),
     RoundtripEnd(p, e2eeActive, if n > 0 then None else raw, slot, ttl, req, n).1)
  }

  lemma AttemptIs(p: Provider, e2eeActive: bool, raw: Option<Raw>, slot: Slot, ttl: int, req: Request, canFlush: bool, n: nat)
    ensures var (m, slot') := RoundtripEnd(p, e2eeActive, if n > 0 then None else raw, slot, ttl, req, n);
            var h := HeardIn(p, e2eeActive, raw, slot, ttl, req, n);
            && AttemptFate(p, e2eeActive, raw, slot, ttl, req, canFlush, n)
               == (FateOfHeard(h, req, canFlush, n + 1 == Attempts(p, e2eeActive)), slot')
            && h == if m.None? then Nothing else Heard(if e2eeActive then req.rounds(n, m.value).encrypted else None, req.rounds(n, m.value).reply)
  {
    hide RoundtripEnd, FateOfHeard;
  }

  /** How a request ends: its fate, the relay attempt that decided it, and what that one heard. */
  datatype Ending = Ending(fate: Fate, attempt: nat, heard: Heard)

  /** The relay attempts from `n` on: the first that is not tried again decides. */
  ghost function RequestEnd(p: Provider, e2eeActive: bool, raw: Option<Raw>, slot: Slot, ttl: int, req: Request, canFlush: bool, n: nat): Ending
    decreases CHUTES_MAX_ATTEMPTS - n
  {
    if n >= Attempts(p, e2eeActive) then Ending(Lost, n, Nothing)
    else
      var (fate, slot') := AttemptFate(p, e2eeActive, raw, slot, ttl, req, canFlush, n);
      if fate == TryAgain then RequestEnd(p, e2eeActive, raw, slot', ttl, req, canFlush, n + 1)
      else Ending(fate, n, HeardIn(p, e2eeActive, raw, slot, ttl, req, n))
  }

  lemma EndStep(p: Provider, e2eeActive: bool, raw: Option<Raw>, slot: Slot, ttl: int, req: Request, canFlush: bool, n: nat)
    requires n < Attempts(p, e2eeActive)
    ensures var (fate, slot') := AttemptFate(p, e2eeActive, raw, slot, ttl, req, canFlush, n);
            RequestEnd(p, e2eeActive, raw, slot, ttl, req, canFlush, n) ==
            if fate == TryAgain then RequestEnd(p, e2eeActive, raw, slot', ttl, req, canFlush, n + 1)
            else Ending(fate, n, HeardIn(p, e2eeActive, raw, slot, ttl, req, n))
  {
    hide AttemptFate, HeardIn;
  }

  /** What the first relay attempt hears is said by the peer that the request's own attestation names, where that is checked. */
  ghost predicate SaidByAttested(p: Provider, raw: Option<Raw>, end: Ending) {
    end.attempt == 0 && end.heard.Heard? && p.usesTlsBinding && raw.Some? && raw.value.tlsKeyFp != "" ==>
      end.heard.reply.Reply? && end.heard.reply.peerSpki == raw.value.tlsKeyFp
  }

  lemma EndIsAttested(p: Provider, e2eeActive: bool, raw: Option<Raw>, slot: Slot, ttl: int, req: Request, canFlush: bool)
    ensures SaidByAttested(p, raw, RequestEnd(p, e2eeActive, raw, slot, ttl, req, canFlush, 0))
  {
    hide AttemptFate, Upstream;
    BackIsAttested(p, e2eeActive, raw, slot, ttl, req, 0, 0);
    EndStep(p, e2eeActive, raw, slot, ttl, req, canFlush, 0);
    if AttemptFate(p, e2eeActive, raw, slot, ttl, req, canFlush, 0).0 == TryAgain {
      LaterEnd(p, e2eeActive, raw, AttemptFate(p, e2eeActive, raw, slot, ttl, req, canFlush, 0).1, ttl, req, canFlush, 1);
    }
  }

  lemma {:induction false} LaterEnd(p: Provider, e2eeActive: bool, raw: Option<Raw>, slot: Slot, ttl: int, req: Request, canFlush: bool, n: nat)
    ensures RequestEnd(p, e2eeActive, raw, slot, ttl, req, canFlush, n).attempt >= n
    decreases CHUTES_MAX_ATTEMPTS - n
  {
    hide AttemptFate, HeardIn;
    if n < Attempts(p, e2eeActive) {
      LaterEnd(p, e2eeActive, raw, AttemptFate(p, e2eeActive, raw, slot, ttl, req, canFlush, n).1, ttl, req, canFlush, n + 1);
    }
  }

  // ---------------------------------------------------------------- what the client is answered

  /** Nothing yet, the output of a relay attempt, an upstream error passed on, or an error of the proxy's own. */
  datatype Answer = Silent | FromAttempt(attempt: nat, out: seq<Emit>) | Passed(status: int) | ErrorOnly(e: Emit)

  function Output(a: Answer): seq<Emit> {
    match a
    case Silent => []
    case FromAttempt(_, out) => out
    case Passed(status) => [PassedOn(status)]
    case ErrorOnly(e) => [e]
  }

  /** One error response of the proxy's own, and nothing else. */
  predicate OneError(out: seq<Emit>) {
    |out| == 1 && out[0].HttpError?
  }

  function FinalError(outcome: Outcome): Emit {
    HttpError(502, if outcome == DecryptionFailed then "response decryption failed" else "relay failed")
  }

  /** The body of a reply can be read: its session exists, or it unwraps. */
  predicate Reads(crypto: Option<Crypto>, reply: Reply) {
    reply.Reply? && reply.status == 200 && if crypto == Some(EhbpCrypto) then reply.ehbp.Unwrapped? else Relayable(crypto)
  }

  /** A reply of which something is passed on: an error response as it is, or a body that can be read. */
  predicate Answering(h: Heard) {
    h.Heard? && h.reply.Reply? && (h.reply.status != 200 || Reads(h.crypto, h.reply))
  }

  /** An unwrapped EHBP body is read without a session. */
  function Reader(crypto: Option<Crypto>): Option<Crypto> {
    if crypto == Some(EhbpCrypto) then None else crypto
  }

  function ReadableBody(crypto: Option<Crypto>, reply: Reply): Body
    requires Reads(crypto, reply)
  {
    if crypto == Some(EhbpCrypto) then reply.ehbp.body else reply.body
  }

  ghost function ReadEnd(crypto: Option<Crypto>, reply: Reply, req: Request, canFlush: bool): Outcome
    requires Reads(crypto, reply)
  {
    RelayEnd(Reader(crypto), ReadableBody(crypto, reply), req.stream, req.endpoint, canFlush)
  }

  /** `out` is what relaying this reply writes. */
  ghost predicate Relays(crypto: Option<Crypto>, reply: Reply, req: Request, canFlush: bool, out: seq<Emit>)
    requires Reads(crypto, reply)
  {
    RelayAnswers(Reader(crypto), ReadableBody(crypto, reply), req.stream, req.endpoint, canFlush, out, ReadEnd(crypto, reply, req, canFlush))
  }

  /** What a client is answered by a request that this relay attempt decided. */
  ghost predicate AnswerIs(answer: Answer, n: nat, h: Heard, req: Request, canFlush: bool) {
    if !Answering(h) then answer.ErrorOnly? && answer.e.HttpError?
    else if h.reply.status != 200 then answer == Passed(h.reply.status)
    else
      var end := ReadEnd(h.crypto, h.reply, req, canFlush);
      || (answer.FromAttempt? && answer.attempt == n && Relays(h.crypto, h.reply, req, canFlush, answer.out) && (answer.out != [] || end == Relayed))
      || (answer == ErrorOnly(FinalError(end)) && end != Relayed && Relays(h.crypto, h.reply, req, canFlush, []))
  }

  /** A request succeeds exactly if its answer is the complete output of the attempt that decided it. */
  lemma AnswerOfFate(answer: Answer, n: nat, h: Heard, req: Request, canFlush: bool, last: bool)
    requires AnswerIs(answer, n, h, req, canFlush) && FateOfHeard(h, req, canFlush, last) != TryAgain
    ensures FateOfHeard(h, req, canFlush, last) == Served <==>
            Answering(h) && h.reply.status == 200 && ReadEnd(h.crypto, h.reply, req, canFlush) == Relayed
    ensures FateOfHeard(h, req, canFlush, last) == Served ==> answer.FromAttempt?
    ensures FateOfHeard(h, req, canFlush, last) != Served ==> Output(answer) != []
  {
    hide RelayEnd, RelayAnswers, FailsSilently;
  }

  /** The fates that set a failure mark; a Chutes relay that fails to decrypt sets none. */
  predicate SetsMark(fate: Fate, chutes: bool) {
    fate == Unwrappable || (fate == Undecrypted && !chutes)
  }

  /** Without E2EE there is nothing to fail to decrypt. */
  lemma PlainReplyFate(reply: Reply, stream: bool, endpoint: FieldPolicy.Endpoint, canFlush: bool, last: bool)
    ensures ReplyFate(None, reply, stream, endpoint, canFlush, last) in {Served, Lost}
  {
    hide RelayEnd;
    if reply.Reply? {
      PlainNeverFailsToDecrypt(reply.body, stream, endpoint, canFlush);
    }
  }

  lemma PlainAttemptFate(p: Provider, raw: Option<Raw>, slot: Slot, ttl: int, req: Request, canFlush: bool, n: nat)
    ensures AttemptFate(p, false, raw, slot, ttl, req, canFlush, n).0 in {TryAgain, Served, Lost}
  {
    hide RoundtripEnd, ReplyFate;
    var h := HeardIn(p, false, raw, slot, ttl, req, n);
    if h.Heard? {
      PlainReplyFate(h.reply, req.stream, req.endpoint, canFlush, n + 1 == Attempts(p, false));
    }
  }

  /** An EHBP response that unwraps never sets a mark, not even if its body then fails to be read. */
  lemma UnwrappedSetsNoMark(reply: Reply, stream: bool, endpoint: FieldPolicy.Endpoint, canFlush: bool, last: bool, chutes: bool)
    requires reply.Reply? && reply.ehbp.Unwrapped?
    ensures !SetsMark(ReplyFate(Some(EhbpCrypto), reply, stream, endpoint, canFlush, last), chutes)
    ensures RelayEnd(None, reply.ehbp.body, stream, endpoint, canFlush) != DecryptionFailed
  {
    PlainNeverFailsToDecrypt(reply.ehbp.body, stream, endpoint, canFlush);
  }

  // ---------------------------------------------------------------- pinned requests

  /** Whether the checks before a pinned handler let the request go out. */
  predicate PinnedGoesOut(p: Provider, cached: Option<Factors>, req: PinnedRequest) {
    p.e2ee ==> if cached.Some? then Report.BindingPassed(cached.value) else req.spkiDomain.Some? && req.spkiDomain.value != ""
  }

  function PinnedGoverning(cached: Option<Factors>, reply: PinnedReply): Option<Factors> {
    if reply.report.Some? then reply.report else cached
  }

  /** Whether the checks after the handler admit its reply. */
  predicate PinnedAdmits(p: Provider, force: bool, report: Option<Factors>, freshReport: bool, marked: bool) {
    && (report.Some? && Report.Blocked(report.value) ==> force)
    && (p.e2ee ==> report.Some? && Report.BindingPassed(report.value) && (marked ==> freshReport))
  }

  /** Whether a pinned reply is relayed. */
  predicate PinnedAdmitted(p: Provider, force: bool, cached: Option<Factors>, marked: bool, reply: PinnedReply) {
    PinnedAdmits(p, force, PinnedGoverning(cached, reply), reply.report.Some?, marked)
  }

  lemma AdmittedUnderTrust(p: Provider, force: bool, cached: Option<Factors>, marked: bool, reply: PinnedReply)
    ensures var report := PinnedGoverning(cached, reply);
            && (PinnedAdmitted(p, force, cached, marked, reply) <==> PinnedAdmits(p, force, report, reply.report.Some?, marked))
            && (report.Some? && Report.Blocked(report.value) && !force ==> !PinnedAdmitted(p, force, cached, marked, reply))
            && (PinnedAdmitted(p, force, cached, marked, reply) && p.e2ee ==> report.Some? && Trusted(report.value, force))
  {
    hide Report.Blocked, Report.BindingPassed;
  }

  /** A pinned reply that is relayed but fails to decrypt with its session. */
  ghost predicate PinnedFailsToDecrypt(req: PinnedRequest, reply: PinnedReply, canFlush: bool) {
    && reply.status == 200 && reply.session.Some?
    && RelayEnd(Some(FieldCrypto(reply.session.value)), reply.body, req.stream, req.endpoint, canFlush) == DecryptionFailed
  }

  /** A pinned request after which the session its handler opened is still live. */
  predicate PinnedLeaks(p: Provider, force: bool, cached: Option<Factors>, marked: bool, req: PinnedRequest) {
    && PinnedGoesOut(p, cached, req) && req.reply.Some? && req.reply.value.session.Some?
    && (!PinnedAdmitted(p, force, cached, marked, req.reply.value) || req.reply.value.status != 200)
  }

  /** What a pinned request comes to, on what is cached and marked before it. */
  datatype PinnedEnd = PinnedEnd(judged: bool, admitted: bool, report: Option<Factors>, own: bool, lifts: bool, marks: bool, leaks: bool)

  const PINNED_REFUSED: PinnedEnd := PinnedEnd(false, false, None, false, false, false, false)

  ghost function PinnedEnding(p: Provider, force: bool, cached: Option<Factors>, marked: bool, req: PinnedRequest, canFlush: bool): PinnedEnd {
    if !PinnedGoesOut(p, cached, req) || req.reply.None? then PINNED_REFUSED
    else
      var reply := req.reply.value;
      var admitted := PinnedAdmitted(p, force, cached, marked, reply);
      PinnedEnd(true, admitted, PinnedGoverning(cached, reply), reply.report.Some?, admitted && p.e2ee && marked,
                admitted && PinnedFailsToDecrypt(req, reply, canFlush), PinnedLeaks(p, force, cached, marked, req))
  }

  /**
   A pinned request goes out only where E2EE has a bound report or can attest on this connection. Its reply is
   admitted only under a report that is not blocked and, for E2EE, is bound, and is the reply's own if a failure is marked.
   */
  lemma PinnedEndingIs(p: Provider, force: bool, cached: Option<Factors>, marked: bool, req: PinnedRequest, canFlush: bool)
    ensures var e := PinnedEnding(p, force, cached, marked, req, canFlush);
            && (e.judged <==>
                  && req.reply.Some?
                  && (p.e2ee && cached.Some? ==> Report.BindingPassed(cached.value))
                  && (p.e2ee && cached.None? ==> req.spkiDomain.Some? && req.spkiDomain.value != ""))
            && (e.judged ==>
                  var reply := req.reply.value;
                  && e.own == reply.report.Some? && e.report == (if reply.report.Some? then reply.report else cached)
                  && (e.admitted <==>
                        && (e.report.Some? && Report.Blocked(e.report.value) ==> force)
                        && (p.e2ee ==> e.report.Some? && Report.BindingPassed(e.report.value) && (marked ==> e.own)))
                  && (e.leaks <==> reply.session.Some? && !(e.admitted && reply.status == 200))
                  && (e.marks ==> e.admitted && reply.status == 200 && reply.session.Some?))
            && (e.admitted ==> e.judged) && (e.lifts <==> e.admitted && p.e2ee && marked)
  {
    hide Report.Blocked, Report.BindingPassed, RelayEnd;
  }

  function PinnedCrypto(reply: PinnedReply): Option<Crypto> {
    if reply.session.Some? then Some(FieldCrypto(reply.session.value)) else None
  }

  /** What the client is answered: an error unless the reply is admitted, and then the reply. */
  ghost predicate PinnedAnswers(admitted: bool, req: PinnedRequest, canFlush: bool, out: seq<Emit>) {
    if !admitted || req.reply.None? then OneError(out)
    else
      var reply := req.reply.value;
      if reply.status != 200 then out == [PassedOn(reply.status)]
      else
        RelayAnswers(PinnedCrypto(reply), reply.body, req.stream, req.endpoint, canFlush, out,
                     RelayEnd(PinnedCrypto(reply), reply.body, req.stream, req.endpoint, canFlush))
  }

  /** The way it happens in practice: an admitted reply that is an upstream error. */
  lemma PinnedErrorLeaks(p: Provider, force: bool, report: Factors, s: FieldPolicy.Session, req: PinnedRequest)
    requires req.reply == Some(PinnedReply(Some(report), "", Some(s), 500, Body([], [], None, false))) && req.spkiDomain == Some("enclave")
    ensures PinnedLeaks(p, force, None, false, req)
  {
  }
}
