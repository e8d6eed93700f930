/**
 The proxy's request state machine: attestation and its caches, failure marks, the key a body is
 encrypted to, the retry loops and the sessions they own.
 */
module Proxy {
  import opened Bytes
  import opened Client
  import opened ProxyModel
  import opened ProxyLog
  import opened ProxyRun
  import Report
  import TtlCache
  import SpkiCache
  import FieldPolicy
  import Relay
  import ChutesRelay

  datatype Status =
    | Fine | NegCached | AttestFailed | BlockedReport | RecoveryPending | UpstreamFailed(kind: string)
    | UpstreamStatus(code: int) | SessionMissing | DecryptFailed | RelayFailure
    | RefusedBefore | RefusedAfter   // a pinned request, before and after its handler ran

  datatype AttestResult = AttestResult(report: Factors, raw: Option<Raw>, e2eeActive: bool)

  /** A body ready to be posted, with the session that can read the reply. */
  datatype Prepared = Prepared(payload: Posted, handle: Option<Handle>)

  /** How one upstream attempt ends. */
  datatype Attempt =
    | Retry
    | GaveUp(kind: string, code: int)
    | Sent(reply: Reply, handle: Option<Handle>)

  /** How one relay attempt ends: try another instance, return at once, or leave the loop. */
  datatype Next = Again | Return(status: Status) | Ended(outcome: Outcome)

  datatype Roundtrip =
    | Failed(kind: string, code: int)
    | Got(reply: Reply, handle: Option<Handle>)

  class Server {
    const force: bool
    const providers: map<string, Provider>
    const cache: TtlCache.Cache<Factors>
    const keys: TtlCache.Cache<string>
    const neg: TtlCache.NegativeCache
    const spki: SpkiCache.Cache

    var e2eeFailed: set<Key>
    var live: set<nat>           // sessions whose keys have not been wiped
    var nextId: nat

    // What has happened: the whole of it, and its parts kind by kind.
    ghost var log: Log
    ghost var frames: Log
    ghost var sends: Log
    ghost var turns: Log
    ghost var checked: set<(Key, string)>   // keys whose REPORTDATA check succeeded

    ghost predicate Stores()
      reads cache, keys, neg, spki
    {
      && cache.Valid() && keys.Valid() && neg.Valid() && spki.Valid()
      && (cache as object) != (keys as object) && (cache as object) != (neg as object) && (keys as object) != (neg as object)
      && (spki as object) != (cache as object) && (spki as object) != (keys as object) && (spki as object) != (neg as object)
    }

    /** The log accounts for all of the ghost state, and each of its events was good when it happened. */
    ghost predicate Logged()
      reads this`log, this`frames, this`sends, this`turns, this`checked, this`e2eeFailed
    {
      && frames == Only(log, Framing) && sends == Only(log, Sending) && turns == Only(log, Turning)
      && checked == CheckedIn(log) && e2eeFailed == MarksIn(log)
      && AllGood(log, providers, force)
    }

    /** The request under way is for `k`. */
    ghost predicate In(k: Key)
      reads this`frames
    {
      StageOf(frames).Busy? && StageOf(frames).key == k
    }

    /** The request under way may post and relay for an E2EE provider. */
    ghost predicate Cleared(k: Key)
      reads this`frames, this`e2eeFailed
    {
      UnderTrust(StageOf(frames), k, force) && k !in e2eeFailed
    }

    ghost predicate Valid()
      reads cache, keys, neg, spki
      reads this`log, this`frames, this`sends, this`turns, this`checked, this`e2eeFailed, this`live, this`nextId
    {
      && Stores() && Logged()
      && Bound(cache.entries, keys.entries, checked, providers, force)
      && (forall i <- live :: i < nextId)
    }

    /** Valid, but for what the invariant says of `k`. */
    ghost predicate ValidBut(k: Key)
      reads cache, keys, neg, spki
      reads this`log, this`frames, this`sends, this`turns, this`checked, this`e2eeFailed, this`live, this`nextId
    {
      && Stores() && Logged()
      && BoundBut(k, cache.entries, keys.entries, checked, providers, force)
      && (forall i <- live :: i < nextId)
    }

    constructor (force: bool, providers: map<string, Provider>, reportTtl: int, keyTtl: int, negTtl: int, spkiTtl: int)
      ensures Valid() && fresh(cache) && fresh(keys) && fresh(neg) && fresh(spki)
      ensures this.force == force && this.providers == providers
      ensures e2eeFailed == {} && live == {} && log == [] && checked == {}
    {
      this.force, this.providers := force, providers;
      cache := new TtlCache.Cache(reportTtl);
      keys := new TtlCache.Cache(keyTtl);
      neg := new TtlCache.Cache(negTtl);
      spki := new SpkiCache.Cache(spkiTtl);
      e2eeFailed, live, nextId := {}, {}, 0;
      log, frames, sends, turns, checked := [], [], [], [], {};
    }

    // -------------------------------------------------------------- the log

    /** What one more event makes of the ghost state. */
    lemma Noting(e: Event)
      requires Logged() && GoodAfter(log, e, providers, force)
      ensures AllGood(log + [e], providers, force)
      ensures CheckedIn(log + [e]) == checked + if e.Check? then {(e.key, e.signingKey)} else {}
      ensures MarksIn(log + [e]) == if e.Mark? then e2eeFailed + {e.key} else if e.Lift? then e2eeFailed - {e.key} else e2eeFailed
      ensures Only(log + [e], Framing) == frames + if KindOf(e) == Framing then [e] else []
      ensures Only(log + [e], Sending) == sends + if KindOf(e) == Sending then [e] else []
      ensures Only(log + [e], Turning) == turns + if KindOf(e) == Turning then [e] else []
    {
      hide AllGood, GoodAfter, CheckedIn, MarksIn, Only;
      AllGoodExtend(log, e, providers, force);
      Extended(log, e);
    }

    lemma Accounts()
      requires Logged()
      ensures checked == CheckedIn(log) && e2eeFailed == MarksIn(log) && StageOf(frames) == StageOf(log)
    {
      StageOfFrames(log);
    }

    /** A request for `k` begins. */
    ghost method BeginRequest(k: Key, hit: Option<Factors>)
      requires Logged()
      modifies this`log, this`frames
      ensures Logged() && log == old(log) + [Begin(k, hit)] && frames == old(frames) + [Begin(k, hit)] && In(k)
    {
      hide AllGood, CheckedIn, MarksIn, Only, GoodAfter, StageOf;
      BeginIsGood(log, k, hit, providers, force);
      Noting(Begin(k, hit));
      StageBegun(frames, k, hit);
      assert sends + [] == sends && turns + [] == turns;
      log, frames := log + [Begin(k, hit)], frames + [Begin(k, hit)];
    }

    /** The report that the request is judged by. */
    ghost method NoteAttested(k: Key, report: Option<Factors>, own: bool)
      requires Logged() && In(k)
      modifies this`log, this`frames
      ensures Logged() && log == old(log) + [Attested(k, report, own)] && frames == old(frames) + [Attested(k, report, own)]
      ensures StageOf(frames) == Busy(k, report, own)
    {
      hide AllGood, CheckedIn, MarksIn, Only, GoodAfter, StageOf;
      Accounts();
      PlainIsGood(log, Attested(k, report, own), providers, force);
      Noting(Attested(k, report, own));
      StageAttested(frames, k, report, own);
      assert sends + [] == sends && turns + [] == turns;
      log, frames := log + [Attested(k, report, own)], frames + [Attested(k, report, own)];
    }

    /** The verifier accepted the key of this attestation. */
    ghost method NoteCheck(k: Key, p: Provider, a: Attestation)
      requires Logged() && In(k) && KeyChecked(a, p)
      modifies this`log, this`checked
      ensures Logged() && Grew(old(log), log)
      ensures checked == old(checked) + {(k, a.raw.signingKey)} && Learned(old(checked), checked, k, p, Some(a))
    {
      hide AllGood, CheckedIn, MarksIn, Only, GoodAfter, StageOf;
      Accounts();
      PlainIsGood(log, Check(k, a.raw.signingKey), providers, force);
      Noting(Check(k, a.raw.signingKey));
      assert sends + [] == sends && turns + [] == turns && frames + [] == frames;
      log, checked := log + [Check(k, a.raw.signingKey)], checked + {(k, a.raw.signingKey)};
    }

    /** A body is posted, or a response is about to be relayed. */
    ghost method NoteSend(e: Event)
      requires Logged() && In(e.key) && (e.Post? || (e.Response? && e.report == StageOf(frames).report))
      requires NeedsE2ee(providers, e.key) ==>
                 Cleared(e.key) && (e.Post? ==> e.payload.Ciphertext? && e.payload.key != "" && (e.key, e.payload.key) in checked)
      modifies this`log, this`sends
      ensures Logged() && log == old(log) + [e] && sends == old(sends) + [e]
    {
      hide AllGood, CheckedIn, MarksIn, Only, GoodAfter, Trusted, StageOf;
      Accounts();
      SendIsGood(log, e, providers, force);
      Noting(e);
      assert turns + [] == turns && frames + [] == frames;
      log, sends := log + [e], sends + [e];
    }

    method SetMark(k: Key)
      requires Logged() && In(k)
      modifies this`log, this`turns, this`e2eeFailed
      ensures Logged() && log == old(log) + [Mark(k)] && turns == old(turns) + [Mark(k)] && e2eeFailed == old(e2eeFailed) + {k}
    {
      hide AllGood, CheckedIn, MarksIn, Only, GoodAfter, StageOf;
      Accounts();
      PlainIsGood(log, Mark(k), providers, force);
      Noting(Mark(k));
      assert sends + [] == sends && frames + [] == frames;
      e2eeFailed := e2eeFailed + {k};
      log, turns := log + [Mark(k)], turns + [Mark(k)];
    }

    method LiftMark(k: Key)
      requires Logged() && UnderTrust(StageOf(frames), k, force) && StageOf(frames).own
      modifies this`log, this`turns, this`e2eeFailed
      ensures Logged() && log == old(log) + [Lift(k)] && turns == old(turns) + [Lift(k)] && e2eeFailed == old(e2eeFailed) - {k}
    {
      hide AllGood, CheckedIn, MarksIn, Only, GoodAfter, Trusted, StageOf;
      Accounts();
      LiftIsGood(log, k, providers, force);
      Noting(Lift(k));
      assert sends + [] == sends && frames + [] == frames;
      e2eeFailed := e2eeFailed - {k};
      log, turns := log + [Lift(k)], turns + [Lift(k)];
    }

    /** A request for `k` is under way, and `p` is its unpinned provider. */
    ghost predicate Serves(k: Key, p: Provider)
      reads this`frames
    {
      In(k) && k.provider in providers && p == providers[k.provider] && !p.pinned
    }

    // -------------------------------------------------------------- the caches

    /** What a lookup at this time finds. */
    ghost function CachedKey(k: Key, now: int): Option<string>
      reads keys
    {
      Usable(SlotOf(keys.entries, k), keys.ttl, now)
    }

    ghost function CachedReport(k: Key, now: int): Option<Factors>
      reads cache
    {
      Hit(cache.entries, k, cache.ttl, now)
    }

    lemma KeyLatest(k: Key)
      requires Stores() && k in keys.entries
      ensures TtlCache.Latest(keys.history, k) == Some(keys.entries[k])
    {
      TtlCache.HeldIsLatest(keys.history, k, keys.ttl);
    }

    lemma ReportLatest(k: Key)
      requires Stores() && k in cache.entries
      ensures TtlCache.Latest(cache.history, k) == Some(cache.entries[k])
    {
      TtlCache.HeldIsLatest(cache.history, k, cache.ttl);
    }

    method LookupKey(k: Key, now: int) returns (r: Option<string>)
      requires Stores()
      ensures r == CachedKey(k, now)
    {
      hide TtlCache.Latest, TtlCache.Evicts, TtlCache.InOrder, TtlCache.Replay, TtlCache.Legal;
      r := keys.Get(k, now);
      if r.Some? {
        KeyLatest(k);
      }
    }

    method LookupReport(k: Key, now: int) returns (r: Option<Factors>)
      requires Stores()
      ensures r == CachedReport(k, now)
    {
      hide TtlCache.Latest, TtlCache.Evicts, TtlCache.InOrder, TtlCache.Replay, TtlCache.Legal;
      r := cache.Get(k, now);
      if r.Some? {
        ReportLatest(k);
      }
    }

    method StoreReport(k: Key, r: Factors, now: int)
      requires Stores() && now > 0
      modifies cache
      ensures Stores() && Wrote(old(cache.entries), cache.entries, k, r) && cache.entries[k].at == now
      ensures k in old(cache.entries) ==> cache.entries == old(cache.entries)[k := TtlCache.Entry(r, now)]
    {
      hide TtlCache.Stored, TtlCache.Legal, TtlCache.Replay, Wrote;
      cache.Put(k, r, now);
      StoredWrites(old(cache.entries), cache.entries, k, r, now, cache.ttl);
    }

    method StoreKey(k: Key, v: string, now: int)
      requires Stores() && now > 0
      modifies keys
      ensures Stores() && Wrote(old(keys.entries), keys.entries, k, v) && SlotOf(keys.entries, k) == Some(TtlCache.Entry(v, now))
    {
      hide TtlCache.Stored, TtlCache.Legal, TtlCache.Replay, Wrote;
      keys.Put(k, v, now);
      StoredWrites(old(keys.entries), keys.entries, k, v, now, keys.ttl);
    }

    /** Drops what is cached for a key, to force a full attestation. */
    method Forget(k: Key)
      requires Stores()
      modifies cache, keys
      ensures Stores()
      ensures cache.entries == old(cache.entries) - {k} && keys.entries == old(keys.entries) - {k}
    {
      hide TtlCache.Latest, TtlCache.Legal, TtlCache.Replay;
      cache.Remove(k);
      keys.Remove(k);
    }

    // -------------------------------------------------------------- attestation

    method FetchAndVerify(k: Key, p: Provider, now: int, fetched: Option<Attestation>) returns (report: Option<Factors>)
      requires Stores() && Logged() && In(k) && now > 0
      modifies neg, this`log, this`checked
      ensures Stores() && Logged() && Learned(old(checked), checked, k, p, fetched)
      ensures Grew(old(log), log)
      ensures match fetched
              case None => report.None? && Wrote(old(neg.entries), neg.entries, k, ()) && checked == old(checked)
              case Some(a) =>
                && report == Some(BuildReport(a, p)) && neg.entries == old(neg.entries)
                && checked == old(checked) + if KeyChecked(a, p) then {(k, a.raw.signingKey)} else {}
    {
      hide Logged, Grew, Learned, Stores, Wrote, BuildReport;
      GrewNone(log);
      LearnedNone(k, p, fetched);
      if fetched.None? {
        StoreFailure(k, now);
        return None;
      }
      report := Some(BuildReport(fetched.value, p));
      if KeyChecked(fetched.value, p) {
        NoteCheck(k, p, fetched.value);
      }
    }

    /** A fetched attestation is cached before it is enforced: the invariant may not hold for `k` yet. */
    method FetchReport(k: Key, p: Provider, req: Request) returns (report: Option<Factors>)
      requires Valid() && Timely(req) && Serves(k, p)
      modifies cache, neg, this`log, this`checked
      ensures Stores() && Logged() && old(checked) <= checked && Learned(old(checked), checked, k, p, req.attestation)
      ensures Grew(old(log), log)
      ensures req.attestation.None? ==> report.None? && Valid() && checked == old(checked)
      ensures req.attestation.Some? ==>
                var a := req.attestation.value;
                && report == Some(BuildReport(a, p)) && ValidBut(k)
                && k in cache.entries && cache.entries[k].value == report.value
                && (!Vouches(k, report.value, providers, force) ==> Valid())
                && (Report.BindingPassed(report.value) ==> p.hasVerifier && a.raw.signingKey != "" && (k, a.raw.signingKey) in checked)
    {
      hide Report.Blocked, Report.BindingPassed, BuildReport, Bound, BoundBut, Vouches, Logged, Grew, Stores;
      report := FetchAndVerify(k, p, req.now, req.attestation);
      if report.None? {
        return;
      }
      StoreReport(k, report.value, req.now);
      BoundAfterReport(old(cache.entries), cache.entries, k, report.value, keys.entries, old(checked), checked, providers, force);
      if Report.BindingPassed(report.value) {
        PassedWasChecked(req.attestation.value, p);
      }
    }

    /** The key of an enforced attestation, even one whose binding failed, replaces the cached one. */
    method CacheSigningKey(k: Key, signingKey: string, now: int)
      requires ValidBut(k) && now > 0
      requires k in cache.entries && Vouches(k, cache.entries[k].value, providers, force) ==>
                 Verifies(providers, k) && signingKey != "" && (k, signingKey) in checked
      requires signingKey == "" ==> Valid()
      modifies keys
      ensures Valid() && (signingKey != "" && (k, signingKey) in checked ==> KeyOk(keys.entries, checked, k))
      ensures SlotOf(keys.entries, k) == if signingKey != "" then Some(TtlCache.Entry(signingKey, now)) else old(SlotOf(keys.entries, k))
      ensures if signingKey != "" then Wrote(old(keys.entries), keys.entries, k, signingKey) else keys.entries == old(keys.entries)
    {
      hide Vouches, Logged, Stores;
      if signingKey != "" {
        ghost var before := keys.entries;
        StoreKey(k, signingKey, now);
        BoundAfterKey(cache.entries, before, keys.entries, k, signingKey, checked, providers, force);
      }
    }

    /** Under a trusted cached report, the cached key is a checked one. */
    lemma HitIsChecked(k: Key, p: Provider, now: int)
      requires Valid() && Serves(k, p) && CachedReport(k, now).Some?
      ensures Trusted(CachedReport(k, now).value, force) ==> KeyOk(keys.entries, checked, k) && p.hasVerifier
    {
      hide Logged, Stores, Trusted;
    }

    /** The report a request is judged by: the cached one, or else the fetched one. */
    ghost function Governing(k: Key, p: Provider, req: Request): Option<Factors>
      reads cache
    {
      if CachedReport(k, req.now).Some? then CachedReport(k, req.now)
      else if req.attestation.Some? then Some(BuildReport(req.attestation.value, p))
      else None
    }

    method AttestAndCache(w: ResponseWriter, k: Key, p: Provider, req: Request) returns (r: Option<AttestResult>, status: Status)
      requires Valid() && Timely(req) && Serves(k, p)
      modifies w, cache, keys, neg, this`log, this`frames, this`checked
      ensures Valid() && Grew(old(log), log) && old(checked) <= checked && Learned(old(checked), checked, k, p, req.attestation)
      ensures frames == old(frames) + old(JudgedBy(k, p, req))
      ensures r.Some? <==> old(Governing(k, p, req)).Some? && (force || !Report.Blocked(old(Governing(k, p, req)).value))
      ensures r.Some? ==> w.out == old(w.out) && status == Fine
      ensures r.None? ==> status == (if old(Governing(k, p, req)).Some? then BlockedReport else AttestFailed)
                          && w.out == old(w.out) + [HttpError(502, if status == BlockedReport then BLOCKED else FETCH_FAILED)]
      ensures r.Some? ==>
                && Some(r.value.report) == old(Governing(k, p, req))
                && r.value.e2eeActive == (p.e2ee && Report.BindingPassed(r.value.report))
                && r.value.raw == old(OwnRaw(k, req)) && SlotOf(keys.entries, k) == old(SlotToUse(k, req))
                && StageOf(frames) == Busy(k, Some(r.value.report), r.value.raw.Some?)
      ensures r.Some? && r.value.e2eeActive ==> KeyOk(keys.entries, checked, k) && p.hasVerifier
      ensures r.Some? && r.value.e2eeActive && r.value.raw.Some? ==>
                r.value.raw.value.signingKey != "" && (k, r.value.raw.value.signingKey) in checked
    {
      hide Report.Blocked, Report.BindingPassed, Governing, Valid, ValidBut, Grew, Learned, CachedReport, KeyOk, SlotOf;
      var report, raw := Attest(k, p, req);
      if report.None? {
        w.Write(HttpError(502, FETCH_FAILED));
        return None, AttestFailed;
      }
      if Report.Blocked(report.value) && !force {
        w.Write(HttpError(502, BLOCKED));
        return None, BlockedReport;
      }
      if raw.Some? {
        CacheSigningKey(k, raw.value.signingKey, req.now);
      }
      r := Some(AttestResult(report.value, raw, p.e2ee && Report.BindingPassed(report.value)));
      status := Fine;
    }

    /** What the attestation of the request said, if it fetched one. */
    ghost function OwnRaw(k: Key, req: Request): Option<Raw>
      reads cache
    {
      if Fresh(k, req) then Some(req.attestation.value.raw) else None
    }

    /** The cached key once an attestation of the request's own has been cached. */
    ghost function SlotToUse(k: Key, req: Request): Slot
      reads cache, keys
    {
      if Fresh(k, req) && req.attestation.value.raw.signingKey != ""
      then Some(TtlCache.Entry(req.attestation.value.raw.signingKey, req.now))
      else SlotOf(keys.entries, k)
    }

    /** What the log says of the report the request is judged by, if there is one. */
    ghost function JudgedBy(k: Key, p: Provider, req: Request): Log
      reads cache
    {
      if Governing(k, p, req).Some? then [Attested(k, Governing(k, p, req), Fresh(k, req))] else []
    }

    /** The governing report, with what an attestation fetched for it said; its key is not cached yet. */
    method Attest(k: Key, p: Provider, req: Request) returns (report: Option<Factors>, raw: Option<Raw>)
      requires Valid() && Timely(req) && Serves(k, p)
      modifies cache, neg, this`log, this`frames, this`checked
      ensures report == old(Governing(k, p, req)) && old(checked) <= checked && Learned(old(checked), checked, k, p, req.attestation)
      ensures Grew(old(log), log) && frames == old(frames) + old(JudgedBy(k, p, req))
      ensures report.Some? ==> raw == old(OwnRaw(k, req)) && StageOf(frames) == Busy(k, report, raw.Some?)
      ensures report.None? || raw.None? || !Vouches(k, report.value, providers, force) ==> Valid()
      ensures report.Some? && raw.None? && Trusted(report.value, force) ==> KeyOk(keys.entries, checked, k) && p.hasVerifier
      ensures report.Some? && raw.Some? ==>
                && ValidBut(k) && k in cache.entries && cache.entries[k].value == report.value
                && (Report.BindingPassed(report.value) ==> p.hasVerifier && raw.value.signingKey != "" && (k, raw.value.signingKey) in checked)
    {
      hide Report.Blocked, Report.BindingPassed, BuildReport, Valid, ValidBut, Grew, Learned, CachedReport, KeyOk, Trusted, Vouches, StageOf;
      GrewNone(log);
      LearnedNone(k, p, req.attestation);
      ValidStores();
      report := LookupReport(k, req.now);
      raw := None;
      ghost var events := log;
      if report.Some? {
        HitIsChecked(k, p, req.now);
        AttestValid(k, report, false);
        GrewTwice(old(log), events, log);
        return;
      }
      report := FetchReport(k, p, req);
      if report.Some? {
        raw := Some(req.attestation.value.raw);
        events := log;
        AttestValidBut(k, report, true, Valid());
        GrewTwice(old(log), events, log);
      }
    }

    ghost method AttestValid(k: Key, report: Option<Factors>, own: bool)
      requires Valid() && In(k)
      modifies this`log, this`frames
      ensures Valid() && Grew(old(log), log) && frames == old(frames) + [Attested(k, report, own)] && StageOf(frames) == Busy(k, report, own)
    {
      hide Stores, Bound, Logged;
      NoteAttested(k, report, own);
    }

    ghost method AttestValidBut(k: Key, report: Option<Factors>, own: bool, valid: bool)
      requires ValidBut(k) && In(k) && (valid ==> Valid())
      modifies this`log, this`frames
      ensures ValidBut(k) && (valid ==> Valid())
      ensures Grew(old(log), log) && frames == old(frames) + [Attested(k, report, own)] && StageOf(frames) == Busy(k, report, own)
    {
      hide Stores, Bound, BoundBut, Logged;
      NoteAttested(k, report, own);
    }

    // -------------------------------------------------------------- failure marks

    /** Forces a full attestation for `k`; forgetting never breaks the invariant. */
    method Invalidate(k: Key)
      requires Valid()
      modifies cache, keys
      ensures Valid()
      ensures cache.entries == old(cache.entries) - {k} && keys.entries == old(keys.entries) - {k}
    {
      hide Bound;
      Forget(k);
      BoundAfterForgetting(old(cache.entries), cache.entries, old(keys.entries), keys.entries, checked, checked, providers, force);
    }

    /** A mark is lifted only by an attestation this request fetched itself; otherwise the request ends. */
    method ClearE2eeFailureIfFresh(w: ResponseWriter, k: Key, raw: Option<Raw>) returns (proceed: bool)
      requires Valid() && UnderTrust(StageOf(frames), k, force) && StageOf(frames).own == raw.Some?
      modifies w, cache, keys, this`log, this`turns, this`e2eeFailed
      ensures Valid() && Grew(old(log), log)
      ensures turns == old(turns) + if k in old(e2eeFailed) && raw.Some? then [Lift(k)] else []
      ensures !proceed ==> log == old(log)
      ensures proceed <==> k !in old(e2eeFailed) || raw.Some?
      ensures proceed ==> e2eeFailed == old(e2eeFailed) - {k} && w.out == old(w.out)
                          && cache.entries == old(cache.entries) && keys.entries == old(keys.entries)
      ensures !proceed ==> e2eeFailed == old(e2eeFailed) && w.out == old(w.out) + [HttpError(503, "E2EE previously failed; re-attestation required")]
                           && cache.entries == old(cache.entries) - {k} && keys.entries == old(keys.entries) - {k}
    {
      hide Valid, Trusted;
      if k !in e2eeFailed {
        return true;
      }
      if raw.Some? {
        LiftMarkValid(k);
        return true;
      }
      Invalidate(k);
      w.Write(HttpError(503, "E2EE previously failed; re-attestation required"));
      proceed := false;
    }

    /** The cached report, if any, records the failure before it is dropped. */
    method DemoteReport(k: Key, now: int)
      requires Stores() && now > 0
      modifies cache
      ensures Stores() && cache.entries - {k} == old(cache.entries) - {k}
      ensures old(CachedReport(k, now)).Some? ==>
                k in cache.entries && cache.entries[k].value == Report.Marked(old(CachedReport(k, now)).value, Report.Failed, E2EE_FAILED_DETAIL)
    {
      var cached := LookupReport(k, now);
      if cached.Some? {
        StoreReport(k, Report.Marked(cached.value, Report.Failed, E2EE_FAILED_DETAIL), now);
        RemoveOverwritten(old(cache.entries), k, cache.entries[k]);
      }
    }

    method SetMarkValid(k: Key)
      requires Valid() && In(k)
      modifies this`log, this`turns, this`e2eeFailed
      ensures Valid() && Grew(old(log), log) && turns == old(turns) + [Mark(k)] && e2eeFailed == old(e2eeFailed) + {k}
    {
      hide Stores, Bound, Logged;
      SetMark(k);
    }

    method LiftMarkValid(k: Key)
      requires Valid() && UnderTrust(StageOf(frames), k, force) && StageOf(frames).own
      modifies this`log, this`turns, this`e2eeFailed
      ensures Valid() && Grew(old(log), log) && turns == old(turns) + [Lift(k)] && e2eeFailed == old(e2eeFailed) - {k}
    {
      hide Stores, Bound, Logged, Trusted;
      LiftMark(k);
    }

    method HandleE2eeDecryptionFailure(k: Key, chutes: bool, now: int) returns (status: Status)
      requires Valid() && In(k) && now > 0
      modifies cache, keys, this`log, this`turns, this`e2eeFailed
      ensures Valid() && status == DecryptFailed && KeyOk(keys.entries, checked, k) && Grew(old(log), log)
      ensures e2eeFailed == if chutes then old(e2eeFailed) else old(e2eeFailed) + {k}
      ensures turns == if chutes then old(turns) else old(turns) + [Mark(k)]
      ensures cache.entries == old(cache.entries) - {k} && keys.entries == old(keys.entries) - {k}
    {
      hide Valid;
      GrewNone(log);
      if !chutes {
        SetMarkValid(k);
      }
      RecordAndForget(k, now);
      status := DecryptFailed;
    }

    method RecordAndForget(k: Key, now: int)
      requires Valid() && now > 0
      modifies cache, keys
      ensures Valid() && KeyOk(keys.entries, checked, k)
      ensures cache.entries == old(cache.entries) - {k} && keys.entries == old(keys.entries) - {k}
    {
      hide Bound, Logged, Stores, CachedReport;
      DemoteReport(k, now);
      Forget(k);
      BoundAfterForgetting(old(cache.entries), cache.entries, old(keys.entries), keys.entries, checked, checked, providers, force);
    }

    // -------------------------------------------------------------- sessions

    method OpenSession(key: string, crypto: Crypto) returns (h: Handle)
      requires Valid()
      modifies this`live, this`nextId
      ensures Valid()
      ensures h.id == old(nextId) && h.id !in old(live) && live == old(live) + {h.id} && h.key == key && h.crypto == crypto
    {
      hide Stores, Logged, Bound;
      h := Handle(nextId, key, crypto);
      live, nextId := live + {nextId}, nextId + 1;
    }

    /** Wipes the keys of a session, if there is one. */
    method ZeroE2ee(h: Option<Handle>)
      requires Valid()
      modifies this`live
      ensures Valid() && live == old(live) - Ids(h)
    {
      hide Stores, Logged, Bound;
      live := live - Ids(h);
    }

    // -------------------------------------------------------------- the upstream body

    /** Fetches an attestation for its key alone, checks the binding, and caches the key. */
    method RefetchKey(k: Key, p: Provider, round: Round) returns (key: Option<string>)
      requires Valid() && round.now > 0 && Serves(k, p) && p.hasVerifier
      modifies keys, this`log, this`checked
      ensures Valid() && Grew(old(log), log) && old(checked) <= checked && Learned(old(checked), checked, k, p, round.refetched)
      ensures key.Some? <==> round.refetched.Some? && FreshBound(round.refetched.value, p)
      ensures key.Some? ==> key.value == round.refetched.value.raw.signingKey && (k, key.value) in checked
                            && SlotOf(keys.entries, k) == Some(TtlCache.Entry(key.value, round.now))
      ensures key.None? ==> keys.entries == old(keys.entries) && checked == old(checked)
    {
      hide Stores, Logged, Bound, FreshBound, KeyChecked, Grew, Learned, Wrote;
      GrewNone(log);
      LearnedNone(k, p, round.refetched);
      if round.refetched.None? || !FreshBound(round.refetched.value, p) {
        return None;
      }
      var signingKey := round.refetched.value.raw.signingKey;
      FreshIsChecked(round.refetched.value, p);
      NoteCheck(k, p, round.refetched.value);
      BoundAfterForgetting(cache.entries, cache.entries, keys.entries, keys.entries, old(checked), checked, providers, force);
      ghost var before := keys.entries;
      StoreKey(k, signingKey, round.now);
      BoundIsBoundBut(k, cache.entries, before, checked, providers, force);
      BoundAfterKey(cache.entries, before, keys.entries, k, signingKey, checked, providers, force);
      key := Some(signingKey);
    }

    /** The key for an encrypted body: the initial attestation's, a reused one, or a fresh one. */
    method ChooseKey(k: Key, p: Provider, freshRaw: Option<Raw>, round: Round) returns (key: Option<string>)
      requires Valid() && round.now > 0 && Serves(k, p) && p.hasVerifier
      requires KeyOk(keys.entries, checked, k)
      requires freshRaw.Some? ==> (k, freshRaw.value.signingKey) in checked
      modifies keys, this`log, this`checked
      ensures Valid() && Grew(old(log), log) && old(checked) <= checked && Learned(old(checked), checked, k, p, round.refetched)
      ensures KeyOk(keys.entries, checked, k)
      ensures key == ChosenKey(p, freshRaw, old(CachedKey(k, round.now)), round)
      ensures key.Some? && key.value != "" ==> (k, key.value) in checked
      ensures SlotOf(keys.entries, k) == SlotBuilt(p, true, freshRaw, old(SlotOf(keys.entries, k)), keys.ttl, round)
    {
      hide Valid, FreshBound, KeyChecked, Learned, Grew;
      GrewNone(log);
      LearnedNone(k, p, round.refetched);
      ValidStores();
      if freshRaw.Some? {
        return Some(freshRaw.value.signingKey);
      }
      key := ReuseKey(k, p, round);
      if key.None? {
        key := RefetchKey(k, p, round);
      }
    }

    method ReuseKey(k: Key, p: Provider, round: Round) returns (key: Option<string>)
      requires Stores()
      ensures key == Reused(CachedKey(k, round.now), p, round)
    {
      hide Stores, CachedKey;
      key := None;
      if p.hasPool {
        var cachedKey := LookupKey(k, round.now);
        if cachedKey.Some? && round.poolKey.Some? && cachedKey.value == round.poolKey.value {
          key := round.poolKey;
        }
      } else if !p.skipSigningKeyCache {
        key := LookupKey(k, round.now);
      }
    }

    /** What may be built for this attempt. Without active E2EE, an E2EE provider gets nothing. */
    method BuildUpstreamBody(k: Key, p: Provider, e2eeActive: bool, freshRaw: Option<Raw>, body: string, round: Round)
        returns (r: Option<Prepared>)
      requires Valid() && round.now > 0 && Serves(k, p)
      requires e2eeActive ==> p.e2ee && p.hasVerifier && KeyOk(keys.entries, checked, k)
      requires e2eeActive && freshRaw.Some? ==> (k, freshRaw.value.signingKey) in checked
      modifies keys, this`log, this`checked, this`live, this`nextId
      ensures Valid() && Grew(old(log), log) && old(checked) <= checked && Learned(old(checked), checked, k, p, round.refetched)
      ensures e2eeActive ==> KeyOk(keys.entries, checked, k)
      ensures SlotOf(keys.entries, k) == SlotBuilt(p, e2eeActive, freshRaw, old(SlotOf(keys.entries, k)), keys.ttl, round)
      ensures r.Some? <==> Builds(p, e2eeActive, freshRaw, old(CachedKey(k, round.now)), round)
      ensures r.Some? ==> r.value.payload == PayloadOf(r.value.handle, body) && (r.value.handle.Some? <==> e2eeActive)
      ensures r.Some? && e2eeActive ==>
                && Some(r.value.handle.value.key) == ChosenKey(p, freshRaw, old(CachedKey(k, round.now)), round)
                && round.encrypted == Some(r.value.handle.value.crypto)
                && r.value.handle.value.key != "" && (k, r.value.handle.value.key) in checked
      ensures r.None? ==> live == old(live)
      ensures r.Some? ==> live == old(live) + Ids(r.value.handle) && Ids(r.value.handle) !! old(live)
    {
      hide Valid, KeyOk, ChosenKey, Learned, Grew, Usable, SlotOf;
      if !e2eeActive {
        GrewNone(log);
        LearnedNone(k, p, round.refetched);
        return if p.e2ee then None else Some(Prepared(Plaintext(body), None));
      }
      var key := ChooseKey(k, p, freshRaw, round);
      if key.None? || key.value == "" || round.encrypted.None? {
        return None;
      }
      var h := OpenSession(key.value, round.encrypted.value);
      r := Some(Prepared(Ciphertext(h.id, h.key), Some(h)));
    }

    lemma LearnedNone(k: Key, p: Provider, a: Option<Attestation>)
      ensures Learned(checked, checked, k, p, a)
    {
    }

    // -------------------------------------------------------------- one upstream roundtrip

    /** Sends a body; `initial` says whether it was encrypted with the request's first attestation. */
    method Do(k: Key, p: Provider, body: Prepared, initial: bool, round: Round) returns (reply: Reply)
      requires Valid() && Serves(k, p) && Ids(body.handle) <= live
      requires p.e2ee ==> Cleared(k) && body.payload.Ciphertext? && body.payload.key != "" && (k, body.payload.key) in checked
      modifies this`log, this`sends
      ensures Valid() && reply == round.reply && Grew(old(log), log)
      ensures sends == old(sends) + [Post(k, body.payload, initial)]
      ensures PostCount(sends) == old(PostCount(sends)) + 1 && InitialCount(sends) == old(InitialCount(sends)) + if initial then 1 else 0
    {
      hide Stores, Bound, Logged, Cleared, PostCount, InitialCount;
      NoteSend(Post(k, body.payload, initial));
      Extended(old(sends), Post(k, body.payload, initial));
      reply := round.reply;
    }

    /** The live peer must be the attested one; a different peer costs the cached attestation and the pinned domain. */
    method VerifyUpstreamTlsBinding(k: Key, peerSpki: string, attested: string, domain: Option<string>) returns (ok: bool)
      requires Valid() && attested != ""
      modifies cache, keys, spki
      ensures Valid() && (ok <==> peerSpki == attested)
      ensures old(KeyOk(keys.entries, checked, k)) ==> KeyOk(keys.entries, checked, k)
      ensures if peerSpki != "" && peerSpki != attested
              then cache.entries == old(cache.entries) - {k} && keys.entries == old(keys.entries) - {k}
                   && spki.domains == old(spki.domains) - Domains(domain)
              else cache.entries == old(cache.entries) && keys.entries == old(keys.entries) && spki.domains == old(spki.domains)
    {
      hide Valid;
      if peerSpki == "" {
        return false;
      }
      if peerSpki != attested {
        Invalidate(k);
        EvictDomain(domain);
        return false;
      }
      ok := true;
    }

    /** Forgets the pinned hashes of a resolved domain. */
    method EvictDomain(domain: Option<string>)
      requires Valid()
      modifies spki
      ensures Valid() && spki.domains == old(spki.domains) - Domains(domain)
    {
      hide Bound, Logged, Stores;
      if domain.Some? && domain.value != "" {
        DropDomain(domain.value);
      } else {
        assert spki.domains - {} == spki.domains;
      }
    }

    method DropDomain(domain: string)
      requires Stores()
      modifies spki
      ensures Stores() && spki.domains == old(spki.domains) - {domain}
    {
      hide SpkiCache.Bounded, SpkiCache.Replay, SpkiCache.Legal;
      spki.DeleteDomain(domain);
    }

    /**
     One attempt: build, post, check the peer. What it does is determined by the cached key and
     what it receives. Sessions of attempts that end here are wiped.
     */
    method UpstreamAttempt(k: Key, p: Provider, e2eeActive: bool, raw: Option<Raw>, first: bool, last: bool, body: string, round: Round)
        returns (a: Attempt)
      requires Valid() && round.now > 0 && Serves(k, p)
      requires e2eeActive ==> p.e2ee && p.hasVerifier && KeyOk(keys.entries, checked, k) && Cleared(k)
      requires e2eeActive && raw.Some? ==> (k, raw.value.signingKey) in checked
      modifies cache, keys, spki, this`log, this`sends, this`checked, this`live, this`nextId
      ensures Valid() && Grew(old(log), log) && old(checked) <= checked && Learned(old(checked), checked, k, p, round.refetched)
      ensures e2eeActive ==> KeyOk(keys.entries, checked, k)
      ensures !a.Sent? ==> live == old(live)
      ensures a.Sent? ==>
                && live == old(live) + Ids(a.handle) && Ids(a.handle) !! old(live)
                && (a.handle.Some? <==> e2eeActive)
                && round.reply == a.reply
                && (a.handle.Some? ==> round.encrypted == Some(a.handle.value.crypto))
      ensures var freshRaw, slot := if first then raw else None, old(SlotOf(keys.entries, k));
              var cached := Usable(slot, keys.ttl, round.now);
              && TryEnd(p, e2eeActive, raw, freshRaw, last, cached, round) ==
                 (if a.Retry? then Retried else if a.Sent? && a.reply.Reply? then Back else Spent)
              && SlotOf(keys.entries, k) == SlotAfter(p, e2eeActive, raw, freshRaw, slot, keys.ttl, round)
              && (if Posts(p, e2eeActive, freshRaw, cached, round)
                  then OnePost(old(sends), sends, k, freshRaw.Some?)
                  else sends == old(sends))
              && PostCount(sends) <= old(PostCount(sends)) + 1
              && InitialCount(sends) <= old(InitialCount(sends)) + (if freshRaw.Some? then 1 else 0)
              && (a.Sent? ==> sends == old(sends) + [Post(k, PayloadOf(a.handle, body), freshRaw.Some?)])
              && (a.Sent? && e2eeActive ==> Some(a.handle.value.key) == ChosenKey(p, freshRaw, cached, round))
      ensures p.e2ee && !e2eeActive ==> sends == old(sends) && !a.Sent?
      ensures var reply := round.reply;
              sends != old(sends)
              && reply.Reply? && p.usesTlsBinding && raw.Some? && raw.value.tlsKeyFp != "" && reply.peerSpki != raw.value.tlsKeyFp ==>
                && a == GaveUp("tls_binding_failed", 502)
                && (reply.peerSpki != "" ==>
                      k !in cache.entries && k !in keys.entries && spki.domains == old(spki.domains) - Domains(round.spkiDomain))
    {
      hide Valid, KeyOk, ChosenKey, Builds, SlotBuilt, SlotOf, PeerOk, ChutesRetryable, Learned, Grew, Cleared, PostCount, InitialCount, Usable, StageOf;
      var freshRaw := if first then raw else None;
      var prepared := BuildUpstreamBody(k, p, e2eeActive, freshRaw, body, round);
      NoPlaintextBody(p, e2eeActive, freshRaw, old(CachedKey(k, round.now)), round);
      if prepared.None? {
        return if !last && !round.canceled then Retry else GaveUp("e2ee_failed", 500);
      }
      var handle := prepared.value.handle;
      if !round.requestOk || !round.headersOk {
        ZeroE2ee(handle);
        return GaveUp("e2ee_failed", 500);
      }
      ghost var built := log;
      a := SendBody(k, p, raw, prepared.value, freshRaw.Some?, last, round);
      GrewTwice(old(log), built, log);
    }

    /** Posts a body and looks at what comes back; unless that is handed on, the session is wiped. */
    method SendBody(k: Key, p: Provider, raw: Option<Raw>, body: Prepared, initial: bool, last: bool, round: Round) returns (a: Attempt)
      requires Valid() && Serves(k, p) && Ids(body.handle) <= live
      requires p.e2ee ==> Cleared(k) && body.payload.Ciphertext? && body.payload.key != "" && (k, body.payload.key) in checked
      modifies cache, keys, spki, this`log, this`sends, this`live
      ensures Valid() && Grew(old(log), log) && sends == old(sends) + [Post(k, body.payload, initial)]
      ensures PostCount(sends) == old(PostCount(sends)) + 1 && InitialCount(sends) == old(InitialCount(sends)) + if initial then 1 else 0
      ensures old(KeyOk(keys.entries, checked, k)) ==> KeyOk(keys.entries, checked, k)
      ensures SlotOf(keys.entries, k) == if !PeerOk(p, raw, round.reply) && round.reply.peerSpki != "" then None else old(SlotOf(keys.entries, k))
      ensures a == if !PeerOk(p, raw, round.reply) then GaveUp("tls_binding_failed", 502)
                   else if !last && ChutesRetryable(round.reply) then Retry
                   else Sent(round.reply, body.handle)
      ensures live == if a.Sent? then old(live) else old(live) - Ids(body.handle)
      ensures var reply := round.reply;
              reply.Reply? && p.usesTlsBinding && raw.Some? && raw.value.tlsKeyFp != "" && reply.peerSpki != raw.value.tlsKeyFp ==>
                && a == GaveUp("tls_binding_failed", 502)
                && (reply.peerSpki != "" ==>
                      k !in cache.entries && k !in keys.entries && spki.domains == old(spki.domains) - Domains(round.spkiDomain))
    {
      hide Valid, KeyOk, ChutesRetryable, Cleared, PostCount, InitialCount;
      var reply := Do(k, p, body, initial, round);
      if reply.Reply? && p.usesTlsBinding && raw.Some? && raw.value.tlsKeyFp != "" {
        var bound := VerifyUpstreamTlsBinding(k, reply.peerSpki, raw.value.tlsKeyFp, round.spkiDomain);
        if !bound {
          ZeroE2ee(body.handle);
          return GaveUp("tls_binding_failed", 502);
        }
      }
      if !last && ChutesRetryable(reply) {
        ZeroE2ee(body.handle);
        return Retry;
      }
      a := Sent(reply, body.handle);
    }

    method DoUpstreamRoundtrip(k: Key, p: Provider, e2eeActive: bool, raw: Option<Raw>, req: Request, relayAttempt: nat)
        returns (r: Roundtrip)
      requires Valid() && Timely(req) && Serves(k, p) && relayAttempt < CHUTES_MAX_ATTEMPTS
      requires e2eeActive ==> p.e2ee && p.hasVerifier && KeyOk(keys.entries, checked, k) && Cleared(k)
      requires e2eeActive && raw.Some? ==> (k, raw.value.signingKey) in checked
      modifies cache, keys, spki, this`log, this`sends, this`checked, this`live, this`nextId
      ensures Valid() && Grew(old(log), log) && old(checked) <= checked && LearnedFrom(old(checked), checked, k, p, req)
      ensures e2eeActive ==> KeyOk(keys.entries, checked, k)
      ensures PostCount(sends) <= old(PostCount(sends)) + CHUTES_MAX_ATTEMPTS
      ensures InitialCount(sends) <= old(InitialCount(sends)) + if raw.Some? then 1 else 0
      ensures |old(sends)| <= |sends| && (p.e2ee && !e2eeActive ==> sends == old(sends) && r.Failed?)
      ensures r.Failed? ==> live == old(live)
      ensures var (m, slot) := RoundtripEnd(p, e2eeActive, raw, old(SlotOf(keys.entries, k)), keys.ttl, req, relayAttempt);
              && SlotOf(keys.entries, k) == slot && (r.Got? <==> m.Some?)
              && (r.Got? ==> m.value < CHUTES_MAX_ATTEMPTS && CameFrom(req.rounds(relayAttempt, m.value), r.reply, r.handle))
      ensures r.Got? ==>
                && r.reply.Reply? && live == old(live) + Ids(r.handle) && Ids(r.handle) !! old(live)
                && (r.handle.Some? <==> e2eeActive)
                && |old(sends)| < |sends| && PostedLast(sends, k, PayloadOf(r.handle, req.body))
      ensures r.Got? && p.usesTlsBinding && raw.Some? && raw.value.tlsKeyFp != "" ==> r.reply.peerSpki == raw.value.tlsKeyFp
    {
      hide Valid, KeyOk, Learned, LearnedFrom, ChosenKey, Grew, Builds, Posts, PeerOk, ChutesRetryable, TryEnd, SlotAfter, Cleared,
        PostCount, InitialCount, SlotOf, Usable, StageOf;
      LearnedNothing(checked, k, p, req);
      GrewNone(log);
      if !req.rounds(relayAttempt, 0).urlResolves {
        return Failed("model_resolution_failed", 502);
      }
      var maxAttempts := if IsChutesE2ee(p, e2eeActive) then CHUTES_MAX_ATTEMPTS else 1;
      var a := Retry;
      for attempt := 0 to maxAttempts
        invariant Valid() && old(checked) <= checked && LearnedFrom(old(checked), checked, k, p, req)
        invariant Grew(old(log), log)
        invariant live == old(live) && PostCount(sends) <= old(PostCount(sends)) + attempt
        invariant InitialCount(sends) <= old(InitialCount(sends)) + if raw.Some? && attempt > 0 then 1 else 0
        invariant e2eeActive ==> KeyOk(keys.entries, checked, k)
        invariant |old(sends)| <= |sends| && (p.e2ee && !e2eeActive ==> sends == old(sends))
        invariant RoundtripEnd(p, e2eeActive, raw, old(SlotOf(keys.entries, k)), keys.ttl, req, relayAttempt)
                  == Upstream(p, e2eeActive, raw, SlotOf(keys.entries, k), keys.ttl, req, relayAttempt, attempt)
        invariant attempt < maxAttempts
      {
        ghost var now, events := checked, log;
        var round := req.rounds(relayAttempt, attempt);
        LastTry(p, e2eeActive, raw, if attempt == 0 then raw else None, CachedKey(k, round.now), round);
        a := UpstreamAttempt(k, p, e2eeActive, raw, attempt == 0, attempt == maxAttempts - 1, req.body, round);
        LearnedInRound(old(checked), now, checked, k, p, req, relayAttempt, attempt);
        GrewTwice(old(log), events, log);
        if !a.Retry? {
          if a.GaveUp? {
            return Failed(a.kind, a.code);
          }
          if a.reply.NoReply? {
            ZeroE2ee(a.handle);
            return Failed("upstream_failed", 502);
          }
          return Got(a.reply, a.handle);
        }
      }
      assert false;
    }

    // -------------------------------------------------------------- relaying with retries

    /** A response is about to be relayed under this report. */
    ghost method LogResponse(k: Key, report: Option<Factors>)
      requires Valid() && In(k) && report == StageOf(frames).report
      requires NeedsE2ee(providers, k) ==> Cleared(k)
      modifies this`log, this`sends
      ensures Valid() && Grew(old(log), log) && sends == old(sends) + [Response(k, report)]
      ensures PostCount(sends) == old(PostCount(sends)) && InitialCount(sends) == old(InitialCount(sends))
    {
      hide Stores, Bound, Logged, Cleared, PostCount, InitialCount;
      NoteSend(Response(k, report));
      Extended(old(sends), Response(k, report));
    }

    /** Unwraps the body of an EHBP response; every failure is an end-to-end failure and is answered. */
    method UnwrapEhbpResponse(w: ResponseWriter, view: EhbpView) returns (body: Option<Body>)
      modifies w
      ensures if view.Unwrapped? then body == Some(view.body) && w.out == old(w.out)
              else body == None && exists msg :: w.out == old(w.out) + [HttpError(502, msg)]
    {
      match view {
        case MissingNonce =>
          w.Write(HttpError(502, "EHBP response missing Ehbp-Response-Nonce header"));
          body := None;
        case BadNonce =>
          w.Write(HttpError(502, "EHBP response nonce invalid"));
          body := None;
        case Undecryptable =>
          w.Write(HttpError(502, "EHBP response decryption failed"));
          body := None;
        case Unwrapped(b) =>
          body := Some(b);
      }
    }

    /** The plaintext body of an EHBP response; its session is wiped either way. */
    method UnwrapOrFail(w: ResponseWriter, k: Key, handle: Option<Handle>, view: EhbpView, now: int)
        returns (body: Option<Body>, ghost e: Emit)
      requires Valid() && In(k) && now > 0
      modifies w, cache, keys, this`live, this`log, this`turns, this`e2eeFailed
      ensures Valid() && Grew(old(log), log) && live == old(live) - Ids(handle)
      ensures turns == if view.Unwrapped? then old(turns) else old(turns) + [Mark(k)]
      ensures old(KeyOk(keys.entries, checked, k)) ==> KeyOk(keys.entries, checked, k)
      ensures view.Unwrapped? ==> body == Some(view.body) && w.out == old(w.out) && e2eeFailed == old(e2eeFailed)
                                  && keys.entries == old(keys.entries)
      ensures !view.Unwrapped? ==> body == None && e.HttpError? && w.out == old(w.out) + [e] && e2eeFailed == old(e2eeFailed) + {k}
                                   && k !in cache.entries && k !in keys.entries
    {
      hide Valid, KeyOk;
      GrewNone(log);
      body := UnwrapEhbpResponse(w, view);
      e := DoneLine;
      ZeroE2ee(handle);
      if body.None? {
        ghost var msg :| w.out == old(w.out) + [HttpError(502, msg)];
        e := HttpError(502, msg);
        var _ := HandleE2eeDecryptionFailure(k, false, now);
      }
    }

    /** Reading a response with its session, after which the session is wiped. */
    method RelayAndWipe(w: ResponseWriter, handle: Option<Handle>, body: Body, stream: bool, endpoint: FieldPolicy.Endpoint)
        returns (outcome: Outcome, ghost out: seq<Emit>)
      requires Valid() && Ids(handle) <= live && Relayable(CryptoOf(handle))
      modifies w, this`live
      ensures Valid() && live == old(live) - Ids(handle)
      ensures w.out == old(w.out) + out && RelayAnswers(CryptoOf(handle), body, stream, endpoint, w.canFlush, out, outcome)
    {
      hide Valid, RelayAnswers;
      outcome, out := RelayResponse(w, CryptoOf(handle), body, stream, endpoint);
      ZeroE2ee(handle);
    }

    /** One relay attempt: a roundtrip, then what to do with its reply. */
    method RelayAttempt(w: ResponseWriter, k: Key, p: Provider, ar: AttestResult, req: Request, n: nat, last: bool)
        returns (next: Next, ghost answer: Answer)
      requires Valid() && Timely(req) && Serves(k, p) && Admitted(ar, k, p)
      requires n < CHUTES_MAX_ATTEMPTS && last == (n + 1 == Attempts(p, ar.e2eeActive))
      modifies w, cache, keys, spki, this`log, this`sends, this`turns, this`checked, this`live, this`nextId, this`e2eeFailed
      ensures Valid() && Grew(old(log), log) && live == old(live)
      ensures old(checked) <= checked && LearnedFrom(old(checked), checked, k, p, req)
      ensures ar.e2eeActive ==> KeyOk(keys.entries, checked, k)
      ensures PostCount(sends) <= old(PostCount(sends)) + CHUTES_MAX_ATTEMPTS
      ensures InitialCount(sends) <= old(InitialCount(sends)) + if n == 0 && ar.raw.Some? then 1 else 0
      ensures w.out == old(w.out) + Output(answer)
      ensures var h := HeardIn(p, ar.e2eeActive, ar.raw, old(SlotOf(keys.entries, k)), keys.ttl, req, n);
              && Settled(next, answer, last, h, req, n, w.canFlush)
              && (Answering(h) ==> PostedAndResponded(old(sends), sends, k, Some(ar.report)))
              && (p.e2ee && !ar.e2eeActive ==> h == Nothing && sends == old(sends))
      ensures |old(sends)| <= |sends|
      ensures var (fate, slot) := AttemptFate(p, ar.e2eeActive, ar.raw, old(SlotOf(keys.entries, k)), keys.ttl, req, w.canFlush, n);
              FateOf(next) == fate && (fate == TryAgain ==> SlotOf(keys.entries, k) == slot)
      ensures FateOf(next) == Unwrappable ==> k !in cache.entries && k !in keys.entries
      ensures turns == old(turns) + Marking(k, FateOf(next) == Unwrappable)
      ensures e2eeFailed == old(e2eeFailed) + if FateOf(next) == Unwrappable then {k} else {}
    {
      hide Valid, KeyOk, Settled, Answering, LearnedFrom, Grew, Cleared, PostCount, InitialCount, SlotOf, FateOfHeard, HeardIn, AttemptFate,
        PostedAndResponded, PostedLast, Trusted, StageOf;
      answer := Silent;
      assert turns + [] == turns && e2eeFailed + {} == e2eeFailed;
      AdmittedIsCleared(ar, k, p);
      AttemptIs(p, ar.e2eeActive, ar.raw, SlotOf(keys.entries, k), keys.ttl, req, w.canFlush, n);
      ghost var h := HeardIn(p, ar.e2eeActive, ar.raw, SlotOf(keys.entries, k), keys.ttl, req, n);
      FateHeard(h, req, w.canFlush, last);
      var ur := Hear(k, p, ar, req, n);
      if ur.Failed? {
        NothingSettles(req, n, w.canFlush, ur.kind);
        if !last {
          return Again, Silent;
        }
        answer := AnswerFailure(w, ur.kind, ur.code);
        return Return(UpstreamFailed(ur.kind)), answer;
      }
      ghost var others, events := old(live), log;
      assert live - Ids(ur.handle) == others;
      RespondedAfterPost(old(sends), sends, k, PayloadOf(ur.handle, req.body), Some(ar.report));
      next, answer := RelayReply(w, k, p, ar, req, n, last, ur.reply, ur.handle);
      GrewTwice(old(log), events, log);
    }

    /** The roundtrip of a relay attempt, in terms of what it hears. */
    method Hear(k: Key, p: Provider, ar: AttestResult, req: Request, n: nat) returns (ur: Roundtrip)
      requires Valid() && Timely(req) && Serves(k, p) && n < CHUTES_MAX_ATTEMPTS
      requires ar.e2eeActive ==> p.e2ee && p.hasVerifier && KeyOk(keys.entries, checked, k) && Cleared(k)
      requires ar.e2eeActive && ar.raw.Some? ==> (k, ar.raw.value.signingKey) in checked
      modifies cache, keys, spki, this`log, this`sends, this`checked, this`live, this`nextId
      ensures Valid() && Grew(old(log), log) && old(checked) <= checked && LearnedFrom(old(checked), checked, k, p, req)
      ensures ar.e2eeActive ==> KeyOk(keys.entries, checked, k)
      ensures PostCount(sends) <= old(PostCount(sends)) + CHUTES_MAX_ATTEMPTS
      ensures InitialCount(sends) <= old(InitialCount(sends)) + if n == 0 && ar.raw.Some? then 1 else 0
      ensures |old(sends)| <= |sends| && (p.e2ee && !ar.e2eeActive ==> sends == old(sends) && ur.Failed?)
      ensures ur.Failed? ==> live == old(live)
      ensures SlotOf(keys.entries, k)
              == RoundtripEnd(p, ar.e2eeActive, if n > 0 then None else ar.raw, old(SlotOf(keys.entries, k)), keys.ttl, req, n).1
      ensures HeardIn(p, ar.e2eeActive, ar.raw, old(SlotOf(keys.entries, k)), keys.ttl, req, n)
              == if ur.Failed? then Nothing else Heard(CryptoOf(ur.handle), ur.reply)
      ensures ur.Got? ==>
                && ur.reply.Reply? && live == old(live) + Ids(ur.handle) && Ids(ur.handle) !! old(live)
                && (ur.handle.Some? <==> ar.e2eeActive)
                && |old(sends)| < |sends| && PostedLast(sends, k, PayloadOf(ur.handle, req.body))
    {
      hide Valid, KeyOk, LearnedFrom, Grew, Cleared, PostCount, InitialCount, SlotOf, RoundtripEnd, PostedLast, StageOf;
      var raw := if n > 0 then None else ar.raw;
      ghost var (m, slot) := RoundtripEnd(p, ar.e2eeActive, raw, SlotOf(keys.entries, k), keys.ttl, req, n);
      ur := DoUpstreamRoundtrip(k, p, ar.e2eeActive, raw, req, n);
      assert SlotOf(keys.entries, k) == slot && (ur.Failed? <==> m.None?);
    }

    method AnswerFailure(w: ResponseWriter, kind: string, code: int) returns (ghost answer: Answer)
      modifies w
      ensures answer.ErrorOnly? && answer.e.HttpError? && w.out == old(w.out) + Output(answer)
    {
      var e := HttpError(code, if kind == "e2ee_failed" then "failed to prepare encrypted request" else "upstream request failed");
      w.Write(e);
      answer := ErrorOnly(e);
    }

    /** A request that passed attestation: E2EE is active only with a checked key and no mark. */
    ghost predicate Admitted(ar: AttestResult, k: Key, p: Provider)
      reads keys, this`frames, this`checked, this`e2eeFailed
    {
      && StageOf(frames) == Busy(k, Some(ar.report), ar.raw.Some?)
      && ar.e2eeActive == (p.e2ee && Report.BindingPassed(ar.report)) && (force || !Report.Blocked(ar.report))
      && (ar.e2eeActive ==> p.hasVerifier && KeyOk(keys.entries, checked, k) && k !in e2eeFailed)
      && (ar.e2eeActive && ar.raw.Some? ==> (k, ar.raw.value.signingKey) in checked)
    }

    lemma AdmittedIsCleared(ar: AttestResult, k: Key, p: Provider)
      requires Admitted(ar, k, p)
      ensures ar.e2eeActive ==> Cleared(k)
    {
    }

    /** What is done with a reply; its session is wiped in every case. */
    method RelayReply(w: ResponseWriter, k: Key, p: Provider, ar: AttestResult, req: Request, n: nat, last: bool, reply: Reply, received: Option<Handle>)
        returns (next: Next, ghost answer: Answer)
      requires Valid() && Timely(req) && Serves(k, p) && StageOf(frames).report == Some(ar.report)
      requires p.e2ee ==> Cleared(k)
      requires reply.Reply? && Ids(received) <= live
      modifies w, cache, keys, this`log, this`sends, this`turns, this`live, this`e2eeFailed
      ensures Valid() && Grew(old(log), log) && live == old(live) - Ids(received)
      ensures PostCount(sends) == old(PostCount(sends)) && InitialCount(sends) == old(InitialCount(sends))
      ensures sends == old(sends) + if Answering(Heard(CryptoOf(received), reply)) then [Response(k, Some(ar.report))] else []
      ensures old(KeyOk(keys.entries, checked, k)) ==> KeyOk(keys.entries, checked, k)
      ensures w.out == old(w.out) + Output(answer)
      ensures Settled(next, answer, last, Heard(CryptoOf(received), reply), req, n, w.canFlush)
      ensures FateOf(next) == ReplyFate(CryptoOf(received), reply, req.stream, req.endpoint, w.canFlush, last)
      ensures if FateOf(next) == Unwrappable then k !in cache.entries && k !in keys.entries else keys.entries == old(keys.entries)
      ensures turns == old(turns) + Marking(k, FateOf(next) == Unwrappable)
      ensures e2eeFailed == old(e2eeFailed) + if FateOf(next) == Unwrappable then {k} else {}
    {
      hide Valid, KeyOk, RelayAnswers, RelayEnd, Grew, Cleared, PostCount, InitialCount, FailsSilently, StageOf;
      answer := Silent;
      GrewNone(log);
      assert turns + [] == turns && sends + [] == sends && e2eeFailed + {} == e2eeFailed;
      var handle := received;
      if reply.status != 200 {
        LogResponse(k, Some(ar.report));
        w.Write(PassedOn(reply.status));
        ZeroE2ee(handle);
        return Return(UpstreamStatus(reply.status)), Passed(reply.status);
      }
      if handle.Some? && handle.value.crypto.ChutesCrypto? && handle.value.crypto.chutes.None? {
        ZeroE2ee(handle);
        if !last {
          return Again, Silent;
        }
        w.Write(HttpError(500, "e2ee session not established"));
        return Return(SessionMissing), ErrorOnly(HttpError(500, "e2ee session not established"));
      }
      next, answer := ReadReply(w, k, p, ar, req, n, last, reply, received);
    }

    /** Reads the body of a reply, which may have to be unwrapped first, and relays it. */
    method ReadReply(w: ResponseWriter, k: Key, p: Provider, ar: AttestResult, req: Request, n: nat, last: bool, reply: Reply, received: Option<Handle>)
        returns (next: Next, ghost answer: Answer)
      requires Valid() && Timely(req) && Serves(k, p) && StageOf(frames).report == Some(ar.report)
      requires p.e2ee ==> Cleared(k)
      requires reply.Reply? && reply.status == 200 && Ids(received) <= live
      requires Relayable(CryptoOf(received)) || CryptoOf(received) == Some(EhbpCrypto)
      modifies w, cache, keys, this`log, this`sends, this`turns, this`live, this`e2eeFailed
      ensures Valid() && Grew(old(log), log) && live == old(live) - Ids(received)
      ensures PostCount(sends) == old(PostCount(sends)) && InitialCount(sends) == old(InitialCount(sends))
      ensures sends == old(sends) + if Answering(Heard(CryptoOf(received), reply)) then [Response(k, Some(ar.report))] else []
      ensures old(KeyOk(keys.entries, checked, k)) ==> KeyOk(keys.entries, checked, k)
      ensures w.out == old(w.out) + Output(answer)
      ensures Settled(next, answer, last, Heard(CryptoOf(received), reply), req, n, w.canFlush)
      ensures FateOf(next) == ReplyFate(CryptoOf(received), reply, req.stream, req.endpoint, w.canFlush, last)
      ensures if FateOf(next) == Unwrappable then k !in cache.entries && k !in keys.entries else keys.entries == old(keys.entries)
      ensures turns == old(turns) + Marking(k, FateOf(next) == Unwrappable)
      ensures e2eeFailed == old(e2eeFailed) + if FateOf(next) == Unwrappable then {k} else {}
    {
      hide Valid, KeyOk, RelayAnswers, RelayEnd, Grew, Cleared, PostCount, InitialCount, FailsSilently, StageOf;
      answer := Silent;
      GrewNone(log);
      assert turns + [] == turns && sends + [] == sends && e2eeFailed + {} == e2eeFailed;
      var body, handle := reply.body, received;
      if handle.Some? && handle.value.crypto.EhbpCrypto? {
        var unwrapped;
        ghost var e;
        unwrapped, e := UnwrapOrFail(w, k, handle, reply.ehbp, req.end);
        if unwrapped.None? {
          return Return(DecryptFailed), ErrorOnly(e);
        }
        body, handle := unwrapped.value, None;
      }
      if handle.None? {
        PlainNeverFailsToDecrypt(body, req.stream, req.endpoint, w.canFlush);
      }
      ghost var events := log;
      LogResponse(k, Some(ar.report));
      GrewTwice(old(log), events, log);
      next, answer := RelayBody(w, req, n, last, handle, body);
    }

    /** Relays the body of a reply; a Chutes relay that failed before writing anything may be tried again. */
    method RelayBody(w: ResponseWriter, req: Request, n: nat, last: bool, handle: Option<Handle>, body: Body)
        returns (next: Next, ghost answer: Answer)
      requires Valid() && Ids(handle) <= live && Relayable(CryptoOf(handle))
      modifies w, this`live
      ensures Valid() && live == old(live) - Ids(handle) && w.out == old(w.out) + Output(answer)
      ensures var end := RelayEnd(CryptoOf(handle), body, req.stream, req.endpoint, w.canFlush);
              if end == DecryptionFailed && !last && FailsSilently(CryptoOf(handle), body, req.stream) then next == Again && answer == Silent
              else && next == Ended(end) && answer.FromAttempt? && answer.attempt == n
                   && RelayAnswers(CryptoOf(handle), body, req.stream, req.endpoint, w.canFlush, answer.out, end)
    {
      hide Valid, RelayAnswers, RelayEnd, FailsSilently;
      var sent := |w.out|;
      var outcome;
      ghost var out;
      outcome, out := RelayAndWipe(w, handle, body, req.stream, req.endpoint);
      EndOfAnswer(CryptoOf(handle), body, req.stream, req.endpoint, w.canFlush, out, outcome);
      if outcome == DecryptionFailed {
        SilentAnswer(CryptoOf(handle), body, req.stream, req.endpoint, w.canFlush, out, outcome);
        if !last && |w.out| == sent {
          return Again, Silent;
        }
      }
      next, answer := Ended(outcome), FromAttempt(n, out);
    }

    /** What a finished relay means for the marks, the caches and the client. */
    method FinishRelay(w: ResponseWriter, k: Key, outcome: Outcome, e2eeActive: bool, chutes: bool, headerSent: bool, now: int)
        returns (status: Status)
      requires Valid() && In(k) && now > 0
      modifies w, cache, keys, this`log, this`turns, this`e2eeFailed
      ensures Valid() && Grew(old(log), log)
      ensures status == if outcome == Relayed then Fine else if outcome == DecryptionFailed && e2eeActive then DecryptFailed else RelayFailure
      ensures e2eeFailed == if status == DecryptFailed && !chutes then old(e2eeFailed) + {k} else old(e2eeFailed)
      ensures turns == old(turns) + Marking(k, status == DecryptFailed && !chutes)
      ensures status == DecryptFailed ==> cache.entries == old(cache.entries) - {k} && keys.entries == old(keys.entries) - {k}
      ensures status != DecryptFailed ==> cache.entries == old(cache.entries) && keys.entries == old(keys.entries)
      ensures w.out == old(w.out) + if status == Fine || headerSent then [] else [FinalError(outcome)]
    {
      hide Valid;
      GrewNone(log);
      assert turns + [] == turns;
      status := Fine;
      if outcome != Relayed {
        if outcome == DecryptionFailed && e2eeActive {
          status := HandleE2eeDecryptionFailure(k, chutes, now);
        } else {
          status := RelayFailure;
        }
        if !headerSent {
          w.Write(FinalError(outcome));
        }
      }
    }

    /** What the end of the deciding attempt means for the request as a whole. */
    method Conclude(w: ResponseWriter, k: Key, req: Request, n: nat, last: bool, next: Next, ghost settled: Answer, ghost h: Heard, e2eeActive: bool,
                    chutes: bool, sent: nat) returns (status: Status, ghost answer: Answer)
      requires Valid() && In(k) && Timely(req) && !next.Again? && Settled(next, settled, last, h, req, n, w.canFlush)
      requires |w.out| == sent + |Output(settled)| && w.out[sent..] == Output(settled)
      requires FateOf(next) == Undecrypted ==> e2eeActive
      requires FateOf(next) == Unwrappable ==> k !in cache.entries && k !in keys.entries
      modifies w, cache, keys, this`log, this`turns, this`e2eeFailed
      ensures Valid() && Grew(old(log), log)
      ensures Concluded(status, FateOf(next)) && AnswerIs(answer, n, h, req, w.canFlush) && (status == Fine ==> h.Heard?)
      ensures turns == old(turns) + Marking(k, FateOf(next) == Undecrypted && !chutes)
      ensures e2eeFailed == Turned(old(e2eeFailed), k, false, FateOf(next) == Undecrypted && !chutes)
      ensures if status == DecryptFailed then k !in cache.entries && k !in keys.entries else keys.entries == old(keys.entries)
      ensures w.out == old(w.out[..sent]) + Output(answer)
    {
      hide Valid, ReadEnd, Relays, Grew;
      SettledAnswer(next, settled, last, h, req, n, w.canFlush);
      GrewNone(log);
      assert turns + [] == turns;
      assert w.out == w.out[..sent] + w.out[sent..];
      if next.Return? {
        return next.status, settled;
      }
      status := FinishRelay(w, k, next.outcome, e2eeActive, chutes, |w.out| > sent, req.end);
      answer := if status != Fine && settled.out == [] then ErrorOnly(FinalError(next.outcome)) else settled;
    }

    /** One turn of the loop over relay attempts: the attempt, and its conclusion unless another one follows. */
    method RelayTurn(w: ResponseWriter, k: Key, p: Provider, ar: AttestResult, req: Request, n: nat, last: bool)
        returns (over: bool, status: Status, ghost answer: Answer)
      requires Valid() && Timely(req) && Serves(k, p) && Admitted(ar, k, p)
      requires n < CHUTES_MAX_ATTEMPTS && last == (n + 1 == Attempts(p, ar.e2eeActive))
      modifies w, cache, keys, spki, this`log, this`sends, this`turns, this`checked, this`live, this`nextId, this`e2eeFailed
      ensures Valid() && Grew(old(log), log) && live == old(live)
      ensures old(checked) <= checked && LearnedFrom(old(checked), checked, k, p, req)
      ensures PostCount(sends) <= old(PostCount(sends)) + CHUTES_MAX_ATTEMPTS
      ensures InitialCount(sends) <= old(InitialCount(sends)) + if n == 0 && ar.raw.Some? then 1 else 0
      ensures |old(sends)| <= |sends| && (p.e2ee && !ar.e2eeActive ==> sends == old(sends))
      ensures var (fate, slot) := AttemptFate(p, ar.e2eeActive, ar.raw, old(SlotOf(keys.entries, k)), keys.ttl, req, w.canFlush, n);
              && over == (fate != TryAgain) && (last ==> over)
              && (!over ==> SlotOf(keys.entries, k) == slot && w.out == old(w.out) && turns == old(turns) && e2eeFailed == old(e2eeFailed)
                            && (ar.e2eeActive ==> KeyOk(keys.entries, checked, k)))
              && (over ==> Concluded(status, fate)
                           && turns == old(turns) + Marking(k, SetsMark(fate, IsChutesE2ee(p, ar.e2eeActive)))
                           && e2eeFailed == Turned(old(e2eeFailed), k, false, SetsMark(fate, IsChutesE2ee(p, ar.e2eeActive))))
      ensures var h := HeardIn(p, ar.e2eeActive, ar.raw, old(SlotOf(keys.entries, k)), keys.ttl, req, n);
              && (over ==> w.out == old(w.out) + Output(answer) && AnswerIs(answer, n, h, req, w.canFlush))
              && (Answering(h) ==> PostedAndResponded(old(sends), sends, k, Some(ar.report)))
              && (p.e2ee && !ar.e2eeActive ==> h == Nothing)
      ensures over && status == Fine && ar.e2eeActive ==> KeyOk(keys.entries, checked, k)
      ensures over && status == DecryptFailed ==> k !in cache.entries && k !in keys.entries
      ensures over && p.e2ee && !ar.e2eeActive ==> status != Fine
    {
      hide Valid, KeyOk, AnswerIs, Settled, Answering, LearnedFrom, IsChutesE2ee, Grew, PostCount, InitialCount, SlotOf, AttemptFate, Trusted, StageOf, Concluded, SetsMark, Turned, Marking, PostedAndResponded, HeardIn;
      var sent := |w.out|;
      PlainAttemptFate(p, ar.raw, SlotOf(keys.entries, k), keys.ttl, req, w.canFlush, n);
      ghost var h := HeardIn(p, ar.e2eeActive, ar.raw, SlotOf(keys.entries, k), keys.ttl, req, n);
      var next;
      next, answer := RelayAttempt(w, k, p, ar, req, n, last);
      over, status := !next.Again?, Fine;
      MarkedOnce(old(turns), old(e2eeFailed), k, FateOf(next), IsChutesE2ee(p, ar.e2eeActive));
      if over {
        ghost var events := log;
        status, answer := Conclude(w, k, req, n, last, next, answer, h, ar.e2eeActive, IsChutesE2ee(p, ar.e2eeActive), sent);
        GrewTwice(old(log), events, log);
      } else {
        SettledAnswer(next, answer, last, h, req, n, w.canFlush);
      }
    }

    method RelayWithRetry(w: ResponseWriter, k: Key, p: Provider, ar: AttestResult, req: Request)
        returns (status: Status, ghost answer: Answer)
      requires Valid() && Timely(req) && Serves(k, p) && Admitted(ar, k, p)
      modifies w, cache, keys, spki, this`log, this`sends, this`turns, this`checked, this`live, this`nextId, this`e2eeFailed
      ensures Valid() && Grew(old(log), log) && live == old(live)
      ensures old(checked) <= checked && LearnedFrom(old(checked), checked, k, p, req)
      ensures PostCount(sends) <= old(PostCount(sends)) + CHUTES_MAX_ATTEMPTS * CHUTES_MAX_ATTEMPTS
      ensures InitialCount(sends) <= old(InitialCount(sends)) + 1
      ensures p.e2ee && !ar.e2eeActive ==> status != Fine && sends == old(sends)
      ensures w.out == old(w.out) + Output(answer)
      ensures p.e2ee && !ar.e2eeActive ==> OneError(Output(answer))
      ensures status == Fine && ar.e2eeActive ==> KeyOk(keys.entries, checked, k)
      ensures status == DecryptFailed ==> k !in cache.entries && k !in keys.entries
      ensures var end := RequestEnd(p, ar.e2eeActive, ar.raw, old(SlotOf(keys.entries, k)), keys.ttl, req, w.canFlush, 0);
              var marks := SetsMark(end.fate, IsChutesE2ee(p, ar.e2eeActive));
              && Concluded(status, end.fate) && AnswerIs(answer, end.attempt, end.heard, req, w.canFlush)
              && (Answering(end.heard) ==> PostedAndResponded(old(sends), sends, k, Some(ar.report)))
              && turns == old(turns) + Marking(k, marks) && e2eeFailed == Turned(old(e2eeFailed), k, false, marks)
    {
      hide Valid, KeyOk, AnswerIs, Answering, LearnedFrom, IsChutesE2ee, Grew, PostCount, InitialCount, SlotOf, HeardIn, AttemptFate, RequestEnd,
        Trusted, SetsMark, Concluded, Turned, StageOf;
      LearnedNothing(checked, k, p, req);
      GrewNone(log);
      var maxAttempts := if IsChutesE2ee(p, ar.e2eeActive) then CHUTES_MAX_ATTEMPTS else 1;
      for n := 0 to maxAttempts
        invariant Valid() && old(checked) <= checked && LearnedFrom(old(checked), checked, k, p, req) && live == old(live)
        invariant Grew(old(log), log)
        invariant PostCount(sends) <= old(PostCount(sends)) + n * CHUTES_MAX_ATTEMPTS
        invariant InitialCount(sends) <= old(InitialCount(sends)) + if n > 0 then 1 else 0
        invariant w.out == old(w.out) && turns == old(turns) && e2eeFailed == old(e2eeFailed)
        invariant ar.e2eeActive ==> KeyOk(keys.entries, checked, k)
        invariant |old(sends)| <= |sends| && (p.e2ee && !ar.e2eeActive ==> sends == old(sends))
        invariant RequestEnd(p, ar.e2eeActive, ar.raw, old(SlotOf(keys.entries, k)), keys.ttl, req, w.canFlush, 0)
                  == RequestEnd(p, ar.e2eeActive, ar.raw, SlotOf(keys.entries, k), keys.ttl, req, w.canFlush, n)
        invariant n < maxAttempts
      {
        ghost var now, events := checked, log;
        EndStep(p, ar.e2eeActive, ar.raw, SlotOf(keys.entries, k), keys.ttl, req, w.canFlush, n);
        var over;
        over, status, answer := RelayTurn(w, k, p, ar, req, n, n == maxAttempts - 1);
        LearnedTwice(old(checked), now, checked, k, p, req);
        GrewTwice(old(log), events, log);
        if over {
          NothingIsError(answer, n, req, w.canFlush);
          return;
        }
      }
      assert false;
    }

    // -------------------------------------------------------------- connection-pinned providers

    /** Before a pinned request: a cached report must have its binding, a missing one forces attestation. */
    method PinnedPreDispatchE2ee(w: ResponseWriter, k: Key, p: Provider, req: PinnedRequest) returns (proceed: bool)
      requires Valid()
      modifies w, spki
      ensures Valid()
      ensures proceed <==> PinnedGoesOut(p, CachedReport(k, req.now), req)
      ensures proceed && p.e2ee ==>
                var cached := CachedReport(k, req.now);
                if cached.Some? then Report.BindingPassed(cached.value) else req.spkiDomain.Some? && req.spkiDomain.value != ""
      ensures if proceed then w.out == old(w.out) else WroteError(old(w.out), w.out)
      ensures spki.domains == old(spki.domains) - if p.e2ee && CachedReport(k, req.now).None? then Domains(req.spkiDomain) else {}
    {
      hide Report.BindingPassed, Valid, StageOf;
      assert spki.domains - {} == spki.domains;
      if !p.e2ee {
        return true;
      }
      ValidStores();
      var cached := LookupReport(k, req.now);
      if cached.Some? {
        if !Report.BindingPassed(cached.value) {
          w.Write(HttpError(502, UNBOUND));
          return false;
        }
        return true;
      }
      if req.spkiDomain.None? || req.spkiDomain.value == "" {
        w.Write(HttpError(500, "E2EE SPKI domain resolution failed"));
        return false;
      }
      EvictDomain(req.spkiDomain);
      proceed := true;
    }

    /** After the handler: E2EE needs a report, its binding, and freshness where a failure is marked. */
    method PinnedPostDispatchE2ee(w: ResponseWriter, k: Key, p: Provider, report: Option<Factors>, freshReport: bool, now: int)
        returns (proceed: bool)
      requires Valid() && now > 0 && (report.Some? && Report.Blocked(report.value) ==> force)
      requires StageOf(frames) == Busy(k, report, freshReport)
      modifies w, cache, keys, neg, this`log, this`turns, this`e2eeFailed
      ensures Valid() && Grew(old(log), log)
      ensures proceed <==> PinnedAdmits(p, force, report, freshReport, k in old(e2eeFailed))
      ensures var lifts := proceed && p.e2ee && k in old(e2eeFailed);
              turns == old(turns) + Lifting(k, lifts) && e2eeFailed == Turned(old(e2eeFailed), k, lifts, false)
      ensures proceed && p.e2ee ==> k !in e2eeFailed
      ensures if proceed then w.out == old(w.out) else WroteError(old(w.out), w.out)
      ensures proceed ==> cache.entries == old(cache.entries) && keys.entries == old(keys.entries)
    {
      hide Report.BindingPassed, Report.Blocked, Valid, Grew;
      GrewNone(log);
      assert turns + [] == turns;
      if !p.e2ee {
        return true;
      }
      if report.None? || !Report.BindingPassed(report.value) {
        RecordFailure(k, now);
        w.Write(HttpError(502, UNBOUND));
        return false;
      }
      if k in e2eeFailed {
        if freshReport {
          LiftMarkValid(k);
        } else {
          Invalidate(k);
          w.Write(HttpError(503, "E2EE previously failed; re-attestation required"));
          return false;
        }
      }
      proceed := true;
    }

    /** The report that governs a pinned reply: its own, which is cached, or the cached one. */
    method PinnedReport(k: Key, reply: PinnedReply, now: int) returns (report: Option<Factors>)
      requires Valid() && In(k) && now > 0 && IsPinned(providers, k)
      modifies cache, this`log, this`frames
      ensures Valid() && Grew(old(log), log) && report == PinnedGoverning(old(CachedReport(k, now)), reply)
      ensures frames == old(frames) + [Attested(k, report, reply.report.Some?)] && StageOf(frames) == Busy(k, report, reply.report.Some?)
    {
      hide Valid, Grew, CachedReport;
      ValidStores();
      report := reply.report;
      if report.Some? {
        PinnedStore(k, report.value, now);
      } else {
        report := LookupReport(k, now);
      }
      AttestValid(k, report, reply.report.Some?);
    }

    method PinnedKey(k: Key, signingKey: string, now: int)
      requires Valid() && now > 0 && IsPinned(providers, k)
      modifies keys
      ensures Valid()
      ensures if signingKey != "" then Wrote(old(keys.entries), keys.entries, k, signingKey) else keys.entries == old(keys.entries)
    {
      hide Logged, Stores;
      if signingKey != "" {
        StoreKey(k, signingKey, now);
        BoundAfterKey(cache.entries, old(keys.entries), keys.entries, k, signingKey, checked, providers, force);
      }
    }

    /** After a pinned relay: a decryption failure marks the pair, a success promotes the report. */
    method HandlePinnedPostRelay(k: Key, report: Option<Factors>, hasSession: bool, outcome: Outcome, now: int) returns (status: Status)
      requires Valid() && In(k) && now > 0 && IsPinned(providers, k)
      modifies cache, keys, this`log, this`turns, this`e2eeFailed
      ensures Valid() && Grew(old(log), log)
      ensures status == if outcome == Relayed then Fine else if outcome == DecryptionFailed && hasSession then DecryptFailed else RelayFailure
      ensures turns == old(turns) + Marking(k, status == DecryptFailed)
      ensures e2eeFailed == Turned(old(e2eeFailed), k, false, status == DecryptFailed)
      ensures status == DecryptFailed ==> k !in cache.entries && k !in keys.entries
      ensures status == Fine && hasSession && report.Some? ==>
                Wrote(old(cache.entries), cache.entries, k, Report.Marked(report.value, Report.Usable, PINNED_DETAIL))
    {
      hide Valid, Grew, Wrote;
      GrewNone(log);
      assert turns + [] == turns;
      if outcome == DecryptionFailed && hasSession {
        status := HandleE2eeDecryptionFailure(k, false, now);
        return;
      }
      if outcome != Relayed {
        return RelayFailure;
      }
      if hasSession && report.Some? {
        PinnedStore(k, Report.Marked(report.value, Report.Usable, PINNED_DETAIL), now);
      }
      status := Fine;
    }

    method PinnedStore(k: Key, report: Factors, now: int)
      requires Valid() && now > 0 && IsPinned(providers, k)
      modifies cache
      ensures Valid() && Wrote(old(cache.entries), cache.entries, k, report)
    {
      hide Logged, Stores;
      StoreReport(k, report, now);
      BoundAfterReport(old(cache.entries), cache.entries, k, report, keys.entries, checked, checked, providers, force);
    }

    /**
     A pinned chat request. The session the handler opened stays live exactly when the reply was
     refused, or was an upstream error that is passed on. Only an admitted reply reaches the client,
     under the report it was judged by; a mark is lifted under a fresh one, and set if decryption fails.
     */
    method HandlePinnedChat(w: ResponseWriter, k: Key, p: Provider, req: PinnedRequest) returns (status: Status, ghost out: seq<Emit>)
      requires Valid() && req.now > 0 && In(k) && IsPinned(providers, k) && p == providers[k.provider]
      modifies w, cache, keys, neg, spki, this`log, this`frames, this`sends, this`turns, this`live, this`nextId, this`e2eeFailed
      ensures Valid() && Grew(old(log), log)
      ensures var e := PinnedEnding(p, force, old(CachedReport(k, req.now)), k in old(e2eeFailed), req, w.canFlush);
              && live == old(live) + (if e.leaks then {old(nextId)} else {})
              && frames == old(frames) + PinnedFrames(k, e) && sends == old(sends) + PinnedSends(k, e)
              && turns == old(turns) + Lifting(k, e.lifts) + Marking(k, e.marks)
              && e2eeFailed == Turned(old(e2eeFailed), k, e.lifts, e.marks)
              && (status == DecryptFailed <==> e.marks) && status != NegCached
              && w.out == old(w.out) + out && PinnedAnswers(e.admitted, req, w.canFlush, out)
    {
      hide Valid, PinnedGoesOut, PinnedAdmitted, PinnedGoverning, PinnedFailsToDecrypt, CachedReport, Grew, StageOf;
      GrewNone(log);
      assert turns + [] == turns && sends + [] == sends && frames + [] == frames && live + {} == live;
      ghost var before := w.out;
      var proceed := PinnedPreDispatchE2ee(w, k, p, req);
      if !proceed {
        out := ErrorWritten(before, w.out);
        return RefusedBefore, out;
      }
      if req.reply.None? {
        RecordFailure(k, req.now);
        w.Write(HttpError(502, "pinned connection failed"));
        return AttestFailed, [HttpError(502, "pinned connection failed")];
      }
      status, out := HandlePinnedReply(w, k, p, req, req.reply.value);
    }

    /** What is done with a pinned reply: the checks after the handler, and then the relay. */
    method HandlePinnedReply(w: ResponseWriter, k: Key, p: Provider, req: PinnedRequest, reply: PinnedReply)
        returns (status: Status, ghost out: seq<Emit>)
      requires Valid() && req.now > 0 && In(k) && IsPinned(providers, k) && p == providers[k.provider] && req.reply == Some(reply)
      modifies w, cache, keys, neg, this`log, this`frames, this`sends, this`turns, this`live, this`nextId, this`e2eeFailed
      ensures Valid() && Grew(old(log), log)
      ensures var cached, marked := old(CachedReport(k, req.now)), k in old(e2eeFailed);
              var admitted := PinnedAdmitted(p, force, cached, marked, reply);
              var lifts, marks := admitted && p.e2ee && marked, admitted && PinnedFailsToDecrypt(req, reply, w.canFlush);
              && live == (if reply.session.Some? && !(admitted && reply.status == 200) then old(live) + {old(nextId)} else old(live))
              && frames == old(frames) + [Attested(k, PinnedGoverning(cached, reply), reply.report.Some?)]
              && sends == old(sends) + (if admitted then [Response(k, PinnedGoverning(cached, reply))] else [])
              && turns == old(turns) + Lifting(k, lifts) + Marking(k, marks)
              && e2eeFailed == Turned(old(e2eeFailed), k, lifts, marks)
              && (status == DecryptFailed <==> marks) && status != NegCached
              && w.out == old(w.out) + out && PinnedAnswers(admitted, req, w.canFlush, out)
    {
      hide Valid, Report.Blocked, Trusted, PinnedAdmits, PinnedAdmitted, PinnedGoverning, PinnedFailsToDecrypt, CachedReport, Grew, StageOf,
        Lifting, Marking, Turned, PinnedAnswers, PinnedCrypto, WroteError, OneError;
      AdmittedUnderTrust(p, force, CachedReport(k, req.now), k in e2eeFailed, reply);
      NotTurned(turns, e2eeFailed, k);
      TurnedTwice(e2eeFailed, k, p.e2ee && k in e2eeFailed, PinnedFailsToDecrypt(req, reply, w.canFlush));
      assert sends + [] == sends;
      var handle := PinnedSession(reply);
      var report := PinnedReport(k, reply, req.now);
      ghost var events := log;
      var proceed;
      proceed, status, out := AdmitPinned(w, k, p, report, reply.report.Some?, req.now);
      GrewTwice(old(log), events, log);
      if !proceed {
        RefusedAnswers(req, w.canFlush, out);
        return;
      }
      events := log;
      status, out := RelayPinned(w, k, req, reply, handle, report);
      GrewTwice(old(log), events, log);
    }

    /** The checks after the handler: a blocked report refuses the reply, and so do those of E2EE. */
    method AdmitPinned(w: ResponseWriter, k: Key, p: Provider, report: Option<Factors>, own: bool, now: int)
        returns (proceed: bool, status: Status, ghost out: seq<Emit>)
      requires Valid() && now > 0 && StageOf(frames) == Busy(k, report, own) && k.provider in providers && p == providers[k.provider]
      modifies w, cache, keys, neg, this`log, this`turns, this`e2eeFailed
      ensures Valid() && Grew(old(log), log) && status in {Fine, BlockedReport, RefusedAfter}
      ensures proceed <==> PinnedAdmits(p, force, report, own, k in old(e2eeFailed))
      ensures var lifts := proceed && p.e2ee && k in old(e2eeFailed);
              turns == old(turns) + Lifting(k, lifts) && e2eeFailed == Turned(old(e2eeFailed), k, lifts, false)
      ensures proceed && NeedsE2ee(providers, k) ==> Cleared(k)
      ensures if proceed then w.out == old(w.out) else w.out == old(w.out) + out && OneError(out)
    {
      hide Valid, Report.Blocked, Report.BindingPassed, WroteError, Grew, StageOf;
      GrewNone(log);
      assert turns + [] == turns;
      ghost var before := w.out;
      status, out := Fine, [];
      if report.Some? && Report.Blocked(report.value) && !force {
        w.Write(HttpError(502, BLOCKED));
        RecordFailure(k, now);
        return false, BlockedReport, [HttpError(502, BLOCKED)];
      }
      proceed := PinnedPostDispatchE2ee(w, k, p, report, own, now);
      if !proceed {
        status := RefusedAfter;
        out := ErrorWritten(before, w.out);
      }
    }

    lemma RefusedAnswers(req: PinnedRequest, canFlush: bool, out: seq<Emit>)
      requires OneError(out)
      ensures PinnedAnswers(false, req, canFlush, out)
    {
    }

    lemma ErrorWritten(before: seq<Emit>, after: seq<Emit>) returns (out: seq<Emit>)
      requires WroteError(before, after)
      ensures after == before + out && OneError(out)
    {
      out := after[|before|..];
    }

    /** Passes an admitted pinned reply on; only a relayed one has its session wiped. */
    method RelayPinned(w: ResponseWriter, k: Key, req: PinnedRequest, reply: PinnedReply, handle: Option<Handle>, report: Option<Factors>)
        returns (status: Status, ghost out: seq<Emit>)
      requires Valid() && req.now > 0 && In(k) && IsPinned(providers, k) && Ids(handle) <= live
      requires CryptoOf(handle) == PinnedCrypto(reply) && req.reply == Some(reply)
      requires StageOf(frames).report == report && (NeedsE2ee(providers, k) ==> Cleared(k))
      modifies w, cache, keys, this`log, this`sends, this`turns, this`live, this`e2eeFailed
      ensures Valid() && Grew(old(log), log) && sends == old(sends) + [Response(k, report)]
      ensures live == if reply.status == 200 then old(live) - Ids(handle) else old(live)
      ensures w.out == old(w.out) + out && PinnedAnswers(true, req, w.canFlush, out)
      ensures status != NegCached && (status == DecryptFailed <==> PinnedFailsToDecrypt(req, reply, w.canFlush))
      ensures turns == old(turns) + Marking(k, status == DecryptFailed)
      ensures e2eeFailed == Turned(old(e2eeFailed), k, false, status == DecryptFailed)
    {
      hide Valid, RelayAnswers, RelayEnd, Trusted, Report.Marked, Wrote, Grew, StageOf;
      assert turns + [] == turns;
      PinnedKey(k, reply.signingKey, req.now);
      LogResponse(k, report);
      if reply.status != 200 {
        w.Write(PassedOn(reply.status));
        return UpstreamStatus(reply.status), [PassedOn(reply.status)];
      }
      var outcome;
      outcome, out := RelayAndWipe(w, handle, reply.body, req.stream, req.endpoint);
      EndOfAnswer(CryptoOf(handle), reply.body, req.stream, req.endpoint, w.canFlush, out, outcome);
      ghost var events := log;
      status := HandlePinnedPostRelay(k, report, handle.Some?, outcome, req.now);
      GrewTwice(old(log), events, log);
    }

    method RecordFailure(k: Key, now: int)
      requires Valid() && now > 0
      modifies neg
      ensures Valid() && Wrote(old(neg.entries), neg.entries, k, ())
    {
      hide Stores, Logged, Bound;
      StoreFailure(k, now);
    }

    method StoreFailure(k: Key, now: int)
      requires Stores() && now > 0
      modifies neg
      ensures Stores() && Wrote(old(neg.entries), neg.entries, k, ())
    {
      hide TtlCache.Stored, TtlCache.Legal, TtlCache.Replay, Wrote;
      neg.Put(k, (), now);
      StoredWrites(old(neg.entries), neg.entries, k, (), now, neg.ttl);
    }

    /** The session a pinned handler opened, if it did. */
    method PinnedSession(reply: PinnedReply) returns (handle: Option<Handle>)
      requires Valid()
      modifies this`live, this`nextId
      ensures Valid() && CryptoOf(handle) == PinnedCrypto(reply)
      ensures live == old(live) + Ids(handle) && Ids(handle) == (if reply.session.Some? then {old(nextId)} else {}) && Ids(handle) !! old(live)
    {
      if reply.session.None? {
        return None;
      }
      var h := OpenSession("", FieldCrypto(reply.session.value));
      handle := Some(h);
    }

    // -------------------------------------------------------------- a whole request

    /** A failure of this pair is recent enough to block. */
    ghost predicate RecentFailure(k: Key, now: int)
      reads neg
    {
      k in neg.entries && now - neg.entries[k].at < neg.ttl
    }

    /** The request gets to talk to its upstream under a report that lets E2EE through. */
    ghost predicate Active(k: Key, p: Provider, req: Request)
      reads cache, neg
    {
      && !RecentFailure(k, req.now) && p.e2ee
      && Governing(k, p, req).Some? && Trusted(Governing(k, p, req).value, force)
    }

    /** The request brings an attestation of its own. */
    ghost predicate Fresh(k: Key, req: Request)
      reads cache
    {
      CachedReport(k, req.now).None? && req.attestation.Some?
    }

    /** The request finds the mark of its pair and brings nothing to lift it with. */
    ghost predicate Stuck(k: Key, p: Provider, req: Request)
      reads cache, neg, this`e2eeFailed
    {
      Active(k, p, req) && k in e2eeFailed && !Fresh(k, req)
    }

    /** The request lifts the mark of its pair. */
    ghost predicate Lifts(k: Key, p: Provider, req: Request)
      reads cache, neg, this`e2eeFailed
    {
      Active(k, p, req) && k in e2eeFailed && Fresh(k, req)
    }

    /** The request gets to its upstream: attested, not blocked and not stuck on a mark. */
    ghost predicate GoesOn(k: Key, p: Provider, req: Request)
      reads cache, neg, this`e2eeFailed
    {
      && !RecentFailure(k, req.now) && Governing(k, p, req).Some?
      && (force || !Report.Blocked(Governing(k, p, req).value)) && !Stuck(k, p, req)
    }

    /** What becomes of it there: its fate, and the relay attempt that decides it with what that one hears. */
    ghost function UpstreamEnd(k: Key, p: Provider, req: Request, canFlush: bool): Ending
      reads cache, keys
      requires Governing(k, p, req).Some?
    {
      RequestEnd(p, Encrypts(k, p, req), OwnRaw(k, req), SlotToUse(k, req), keys.ttl, req, canFlush, 0)
    }

    ghost predicate Encrypts(k: Key, p: Provider, req: Request)
      reads cache
      requires Governing(k, p, req).Some?
    {
      p.e2ee && Report.BindingPassed(Governing(k, p, req).value)
    }

    /** The request sets the mark of its pair. */
    ghost predicate Marks(k: Key, p: Provider, req: Request, canFlush: bool)
      reads cache, keys, neg, this`e2eeFailed
    {
      GoesOn(k, p, req) && SetsMark(UpstreamEnd(k, p, req, canFlush).fate, IsChutesE2ee(p, Encrypts(k, p, req)))
    }

    /** How the request ends, short of what its upstream does with it. */
    ghost predicate Ends(k: Key, p: Provider, req: Request, canFlush: bool, status: Status)
      reads cache, keys, neg, this`e2eeFailed
    {
      if RecentFailure(k, req.now) then status == NegCached
      else if Governing(k, p, req).None? then status == AttestFailed
      else if !force && Report.Blocked(Governing(k, p, req).value) then status == BlockedReport
      else if Stuck(k, p, req) then status == RecoveryPending
      else Concluded(status, UpstreamEnd(k, p, req, canFlush).fate)
    }

    /**
     An unpinned request, from its beginning to its answer. What it logs, the marks it lifts and
     sets, and whether it succeeds are determined by the state before and by what it receives.
     */
    method HandleRequest(w: ResponseWriter, req: Request) returns (status: Status, ghost answer: Answer)
      requires Valid() && Timely(req) && Unpinned(providers, req)
      modifies w, cache, keys, neg, spki, this`log, this`frames, this`sends, this`turns, this`checked, this`live, this`nextId, this`e2eeFailed
      ensures Valid() && live == old(live)
      ensures var k, p := PairOf(req), providers[req.provider];
              && Grew(old(log) + [Begin(k, old(CachedReport(k, req.now)))], log)
              && frames == old(frames) + [Begin(k, old(CachedReport(k, req.now)))] + (if old(RecentFailure(k, req.now)) then [] else old(JudgedBy(k, p, req)))
              && turns == old(turns) + Lifting(k, old(Lifts(k, p, req))) + Marking(k, old(Marks(k, p, req, w.canFlush)))
              && e2eeFailed == Turned(old(e2eeFailed), k, old(Lifts(k, p, req)), old(Marks(k, p, req, w.canFlush)))
              && old(checked) <= checked && LearnedFrom(old(checked), checked, k, p, req)
      ensures var k, p := PairOf(req), providers[req.provider];
              && old(Ends(k, p, req, w.canFlush, status))
              && w.out == old(w.out) + Output(answer)
              && (if old(GoesOn(k, p, req)) then
                    var end := old(UpstreamEnd(k, p, req, w.canFlush));
                    && AnswerIs(answer, end.attempt, end.heard, req, w.canFlush)
                    && (old(CachedReport(k, req.now)).None? && req.attestation.Some? ==> SaidByAttested(p, Some(req.attestation.value.raw), end))
                    && (Answering(end.heard) ==> PostedAndResponded(old(sends), sends, k, old(Governing(k, p, req))))
                    && (p.e2ee && !old(Encrypts(k, p, req)) ==> sends == old(sends) && OneError(Output(answer)))
                  else sends == old(sends) && OneError(Output(answer)))
              && (status == DecryptFailed ==> k !in cache.entries && k !in keys.entries)
              && (status == Fine && p.e2ee ==>
                    && old(Active(k, p, req)) && k in cache.entries
                    && cache.entries[k] == TtlCache.Entry(Report.Marked(old(Governing(k, p, req)).value, Report.Usable, PROMOTED_DETAIL), req.end))
      ensures PostCount(sends) <= old(PostCount(sends)) + CHUTES_MAX_ATTEMPTS * CHUTES_MAX_ATTEMPTS
      ensures InitialCount(sends) <= old(InitialCount(sends)) + 1
    {
      hide Valid, KeyOk, AnswerIs, Answering, PostedAndResponded, CachedReport, Report.Blocked, Report.BindingPassed, Report.Marked, Learned, LearnedFrom, Grew, RequestEnd,
        PostCount, InitialCount, Governing, OwnRaw, SlotToUse, SlotOf, JudgedBy, IsChutesE2ee, RecentFailure,
        GoesOn, Lifts, Stuck, Active, Marks, Ends, UpstreamEnd, StageOf, SaidByAttested, Concluded, SetsMark, Encrypts, Fresh;
      var k := PairOf(req);
      var p := providers[req.provider];
      LearnedNothing(checked, k, p, req);
      Foreseen(k, p, req, w.canFlush);
      OwnRawIs(k, req);
      assert turns + [] + [] == turns;
      BeginValid(k, CachedReport(k, req.now));
      ghost var begun := log;
      GrewNone(begun);
      var blocked := RecentlyFailed(k, req.now);
      if blocked {
        var e := HttpError(503, "attestation recently failed; try again later");
        w.Write(e);
        return NegCached, ErrorOnly(e);
      }
      var attested;
      attested, status := AttestAndCache(w, k, p, req);
      LearnedFirst(old(checked), checked, k, p, req);
      ghost var now, events := checked, log;
      if attested.None? {
        answer := ErrorOnly(w.out[|w.out| - 1]);
        return;
      }
      status, answer := HandleAttested(w, k, p, attested.value, req);
      LearnedTwice(old(checked), now, checked, k, p, req);
      GrewTwice(begun, events, log);
    }

    /** The three ways a request can go, by the report it is judged by. */
    lemma Foreseen(k: Key, p: Provider, req: Request, canFlush: bool)
      ensures RecentFailure(k, req.now) ==>
                !GoesOn(k, p, req) && !Lifts(k, p, req) && !Marks(k, p, req, canFlush) && Ends(k, p, req, canFlush, NegCached)
      ensures !RecentFailure(k, req.now) && !Governing(k, p, req).Some? ==>
                !GoesOn(k, p, req) && !Lifts(k, p, req) && !Marks(k, p, req, canFlush) && Ends(k, p, req, canFlush, AttestFailed)
      ensures !RecentFailure(k, req.now) && Governing(k, p, req).Some? && !force && Report.Blocked(Governing(k, p, req).value) ==>
                !GoesOn(k, p, req) && !Lifts(k, p, req) && !Marks(k, p, req, canFlush) && Ends(k, p, req, canFlush, BlockedReport)
      ensures !RecentFailure(k, req.now) && Governing(k, p, req).Some? && (force || !Report.Blocked(Governing(k, p, req).value)) ==>
                var active, raw := p.e2ee && Report.BindingPassed(Governing(k, p, req).value), OwnRaw(k, req);
                var marked := k in e2eeFailed;
                var end := RequestEnd(p, active, raw, SlotToUse(k, req), keys.ttl, req, canFlush, 0);
                var stuck := active && marked && raw.None?;
                && UpstreamEnd(k, p, req, canFlush) == end && (Encrypts(k, p, req) <==> active)
                && (Active(k, p, req) <==> active) && (GoesOn(k, p, req) <==> !stuck)
                && (Lifts(k, p, req) <==> active && marked && raw.Some?)
                && (Marks(k, p, req, canFlush) <==> !stuck && SetsMark(end.fate, IsChutesE2ee(p, active)))
                && (stuck ==> Ends(k, p, req, canFlush, RecoveryPending))
                && (!stuck ==> forall status :: Ends(k, p, req, canFlush, status) <==> Concluded(status, end.fate))
    {
      hide Report.Blocked, Report.BindingPassed, RequestEnd, Governing, SlotToUse, IsChutesE2ee, RecentFailure;
    }

    /** The marks a request leaves, in terms of how it ends and of what it brings. */
    lemma MarksMatchEnd(k: Key, p: Provider, req: Request, canFlush: bool, status: Status)
      requires Ends(k, p, req, canFlush, status)
      ensures MarksMoved(e2eeFailed, Turned(e2eeFailed, k, Lifts(k, p, req), Marks(k, p, req, canFlush)), k, p, status,
                         CachedReport(k, req.now).None? && req.attestation.Some?)
    {
      hide Report.Blocked, Report.BindingPassed, RequestEnd, Governing, SlotToUse, RecentFailure, CachedReport;
    }

    lemma OwnRawIs(k: Key, req: Request)
      ensures CachedReport(k, req.now).None? && req.attestation.Some? ==> OwnRaw(k, req) == Some(req.attestation.value.raw)
    {
      hide CachedReport;
    }

    ghost method BeginValid(k: Key, hit: Option<Factors>)
      requires Valid()
      modifies this`log, this`frames
      ensures Valid() && log == old(log) + [Begin(k, hit)] && frames == old(frames) + [Begin(k, hit)] && In(k)
    {
      hide Stores, Bound, Logged;
      BeginRequest(k, hit);
    }

    /** What follows attestation: recovery from a marked failure, the relay, the promoted report. */
    method HandleAttested(w: ResponseWriter, k: Key, p: Provider, ar: AttestResult, req: Request) returns (status: Status, ghost answer: Answer)
      requires Valid() && Timely(req) && Serves(k, p)
      requires StageOf(frames) == Busy(k, Some(ar.report), ar.raw.Some?)
      requires ar.e2eeActive == (p.e2ee && Report.BindingPassed(ar.report)) && (force || !Report.Blocked(ar.report))
      requires ar.e2eeActive ==> p.hasVerifier && KeyOk(keys.entries, checked, k)
      requires ar.e2eeActive && ar.raw.Some? ==> (k, ar.raw.value.signingKey) in checked
      modifies w, cache, keys, spki, this`log, this`sends, this`turns, this`checked, this`live, this`nextId, this`e2eeFailed
      ensures Valid() && Grew(old(log), log) && live == old(live)
      ensures old(checked) <= checked && LearnedFrom(old(checked), checked, k, p, req)
      ensures PostCount(sends) <= old(PostCount(sends)) + CHUTES_MAX_ATTEMPTS * CHUTES_MAX_ATTEMPTS
      ensures InitialCount(sends) <= old(InitialCount(sends)) + 1
      ensures w.out == old(w.out) + Output(answer)
      ensures var stuck := ar.e2eeActive && k in old(e2eeFailed) && ar.raw.None?;
              var lifts := ar.e2eeActive && k in old(e2eeFailed) && ar.raw.Some?;
              var end := RequestEnd(p, ar.e2eeActive, ar.raw, old(SlotOf(keys.entries, k)), keys.ttl, req, w.canFlush, 0);
              var marks := !stuck && SetsMark(end.fate, IsChutesE2ee(p, ar.e2eeActive));
              && turns == old(turns) + Lifting(k, lifts) + Marking(k, marks)
              && e2eeFailed == Turned(old(e2eeFailed), k, lifts, marks)
              && (if stuck then status == RecoveryPending && log == old(log) && sends == old(sends) && OneError(Output(answer))
                  else
                    && AnswerIs(answer, end.attempt, end.heard, req, w.canFlush) && Concluded(status, end.fate)
                    && SaidByAttested(p, ar.raw, end)
                    && (Answering(end.heard) ==> PostedAndResponded(old(sends), sends, k, Some(ar.report))))
      ensures p.e2ee && !ar.e2eeActive ==> sends == old(sends) && OneError(Output(answer))
      ensures status == DecryptFailed ==> k !in cache.entries && k !in keys.entries
      ensures status == Fine && p.e2ee ==>
                && ar.e2eeActive && k in cache.entries
                && cache.entries[k] == TtlCache.Entry(Report.Marked(ar.report, Report.Usable, PROMOTED_DETAIL), req.end)
    {
      hide Valid, KeyOk, AnswerIs, Answering, PostedAndResponded, SaidByAttested, Report.Blocked, Report.BindingPassed, Report.Marked, LearnedFrom, Grew,
        RequestEnd, PostCount, InitialCount, SlotOf, IsChutesE2ee, StageOf;
      LearnedNothing(checked, k, p, req);
      GrewNone(log);
      assert turns + [] == turns;
      if ar.e2eeActive {
        var proceed := ClearE2eeFailureIfFresh(w, k, ar.raw);
        if !proceed {
          return RecoveryPending, ErrorOnly(HttpError(503, "E2EE previously failed; re-attestation required"));
        }
      }
      ghost var events := log;
      EndIsAttested(p, ar.e2eeActive, ar.raw, SlotOf(keys.entries, k), keys.ttl, req, w.canFlush);
      status, answer := RelayWithRetry(w, k, p, ar, req);
      GrewTwice(old(log), events, log);
      if status == Fine && ar.e2eeActive {
        PromoteReport(k, p, ar.report, req.end);
      }
    }

    method RecentlyFailed(k: Key, now: int) returns (blocked: bool)
      requires Valid()
      ensures blocked <==> RecentFailure(k, now)
    {
      hide Logged;
      blocked := TtlCache.IsBlocked(neg, k, now);
    }

    /** After a successful exchange the report is stored again, with its end-to-end factor promoted. */
    method PromoteReport(k: Key, p: Provider, report: Factors, now: int)
      requires Valid() && now > 0 && Serves(k, p) && p.hasVerifier
      requires KeyOk(keys.entries, checked, k)
      modifies cache
      ensures Valid()
      ensures k in cache.entries
      ensures cache.entries[k] == TtlCache.Entry(Report.Marked(report, Report.Usable, PROMOTED_DETAIL), now)
    {
      hide Logged, Stores;
      var promoted := Report.Marked(report, Report.Usable, PROMOTED_DETAIL);
      StoreReport(k, promoted, now);
      BoundAfterReport(old(cache.entries), cache.entries, k, promoted, keys.entries, checked, checked, providers, force);
    }

    /** A pinned request, from its beginning to its answer. */
    method HandlePinned(w: ResponseWriter, req: PinnedRequest) returns (status: Status, ghost out: seq<Emit>)
      requires Valid() && Acceptable(providers, Pinned(req))
      modifies w, cache, keys, neg, spki, this`log, this`frames, this`sends, this`turns, this`live, this`nextId, this`e2eeFailed
      ensures Valid()
      ensures var k := KeyOf(Pinned(req));
              var cached := old(CachedReport(k, req.now));
              var e := if old(RecentFailure(k, req.now)) then PINNED_REFUSED
                       else PinnedEnding(providers[req.provider], force, cached, k in old(e2eeFailed), req, w.canFlush);
              && Grew(old(log) + [Begin(k, cached)], log)
              && live == old(live) + (if e.leaks then {old(nextId)} else {})
              && frames == old(frames) + [Begin(k, cached)] + PinnedFrames(k, e) && sends == old(sends) + PinnedSends(k, e)
              && turns == old(turns) + Lifting(k, e.lifts) + Marking(k, e.marks)
              && e2eeFailed == Turned(old(e2eeFailed), k, e.lifts, e.marks)
              && (status == DecryptFailed <==> e.marks) && (status == NegCached <==> old(RecentFailure(k, req.now)))
              && w.out == old(w.out) + out && PinnedAnswers(e.admitted, req, w.canFlush, out)
    {
      hide Valid, Grew, PinnedEnding, PinnedAnswers, CachedReport, RecentFailure;
      var k := KeyOf(Pinned(req));
      BeginValid(k, CachedReport(k, req.now));
      GrewNone(log);
      assert turns + [] == turns && sends + [] == sends && frames + [] == frames && live + {} == live;
      var blocked := RecentlyFailed(k, req.now);
      if blocked {
        var e := HttpError(503, "attestation recently failed; try again later");
        w.Write(e);
        RefusedAnswers(req, w.canFlush, [e]);
        return NegCached, [e];
      }
      status, out := HandlePinnedChat(w, k, providers[req.provider], req);
    }

    /** One request of either kind: what it finds cached, how it is judged, and what its client sees. */
    method HandleOne(w: ResponseWriter, r: Incoming) returns (ghost out: seq<Emit>)
      requires Valid() && Acceptable(providers, r)
      modifies w, cache, keys, neg, spki, this`log, this`frames, this`sends, this`turns, this`checked, this`live, this`nextId, this`e2eeFailed
      ensures Valid()
      ensures var begin := BeginOf(r, old(CachedReport(KeyOf(r), TimeOf(r))));
              && Grew(old(log) + [begin], log)
              && exists tail :: Judged(providers, r, begin.hit, tail) && frames == old(frames) + [begin] + tail
      ensures forall c <- checked :: c in old(checked) || ProvesFor(providers, r, c)
      ensures PostCount(sends) <= old(PostCount(sends)) + CHUTES_MAX_ATTEMPTS * CHUTES_MAX_ATTEMPTS
      ensures old(live) <= live && (r.Direct? ==> live == old(live))
      ensures w.out == old(w.out) + out && (OneError(out) || Responded(old(sends), sends, KeyOf(r)))
    {
      hide Valid, Grew, PostCount, CachedReport, PinnedEnding, PinnedFrames, PinnedSends, PinnedAnswers, Judged, Responded;
      match r {
        case Direct(req) =>
          ghost var k, p := PairOf(req), providers[req.provider];
          ghost var tail := if RecentFailure(k, req.now) then [] else JudgedBy(k, p, req);
          assert Judged(providers, r, CachedReport(k, req.now), tail) by { JudgedExactly(k, p, req); }
          ghost var found := CachedReport(k, req.now);
          ghost var goesOn, report := GoesOn(k, p, req), Governing(k, p, req);
          ghost var end := if goesOn then UpstreamEnd(k, p, req, w.canFlush) else Ending(Lost, 0, Nothing);
          var _, answer := HandleRequest(w, req);
          assert frames == old(frames) + [BeginOf(r, found)] + tail;
          if goesOn {
            AnswerOnRecord(answer, end, old(sends), sends, k, report, req, w.canFlush);
          }
          out := Output(answer);
        case Pinned(req) =>
          ghost var k, found := KeyOf(r), CachedReport(KeyOf(r), TimeOf(r));
          ghost var e := if RecentFailure(k, req.now) then PINNED_REFUSED
                         else PinnedEnding(providers[req.provider], force, found, k in e2eeFailed, req, w.canFlush);
          PinnedAdds(sends, k, e, req, found, w.canFlush);
          var _, o := HandlePinned(w, req);
          out := o;
      }
    }

    /**
     Any number of requests, pinned or not, one after another. The log of the run is theirs, request
     by request, and every event in it is safe: bodies for E2EE providers are ciphertexts to keys
     proved by then, responses are relayed under the report their request was judged by and never
     under a mark, and a mark is lifted only under a report its request brought itself, having found
     none cached. A client whose request has no response on record sees one error and nothing else.
     */
    method Serve(w: ResponseWriter, rs: seq<Incoming>) returns (ghost ends: seq<nat>, ghost outs: seq<seq<Emit>>, ghost found: seq<Reports>)
      requires Valid() && forall r <- rs :: Acceptable(providers, r)
      modifies w, cache, keys, neg, spki, this`log, this`frames, this`sends, this`turns, this`checked, this`live, this`nextId, this`e2eeFailed
      ensures Valid() && AllGood(log, providers, force)
      ensures Run(providers, log, rs, ends) && ends[0] == old(|log|) && log[..ends[0]] == old(log) && ends[|rs|] == |log|
      ensures Found(log, rs, ends, found, cache.ttl) && found[0] == old(cache.entries) && found[|rs|] == cache.entries
      ensures AllSafe(providers, force, log, rs, ends)
      ensures |outs| == |rs| && w.out == old(w.out) + AllOutput(outs) && Answered(log, ends, outs)
      ensures forall c <- checked :: c in old(checked) || ProvedBy(providers, rs, c)
      ensures PostCount(sends) <= old(PostCount(sends)) + CHUTES_MAX_ATTEMPTS * CHUTES_MAX_ATTEMPTS * |rs|
      ensures old(live) <= live && ((forall r <- rs :: r.Direct?) ==> live == old(live))
    {
      hide Valid, Run, Found, Answered, AllOutput, AllGood, AllSafe, Acceptable, Judged, PostCount, ProvesFor, ProvedBy, Grew, Hit, Only, OnRecord,
        Responded;
      LogIsGood();
      ends, outs, found := [|log|], [], [cache.entries];
      RunStart(providers, log, rs);
      NothingYet(log, rs, cache.entries, cache.ttl);
      for i := 0 to |rs|
        invariant Valid() && |ends| == i + 1 && ends[0] == old(|log|) && ends[i] == |log| && Run(providers, log, rs[..i], ends)
        invariant ends[0] <= |log| && log[..ends[0]] == old(log)
        invariant Found(log, rs[..i], ends, found, cache.ttl) && |found| == i + 1 && found[0] == old(cache.entries) && found[i] == cache.entries
        invariant |outs| == i && w.out == old(w.out) + AllOutput(outs) && Answered(log, ends, outs)
        invariant PostCount(sends) <= old(PostCount(sends)) + CHUTES_MAX_ATTEMPTS * CHUTES_MAX_ATTEMPTS * i
        invariant old(live) <= live && ((forall r <- rs[..i] :: r.Direct?) ==> live == old(live))
      {
        assert rs[i] in rs && rs[i] in rs[..i + 1];
        ghost var before, hit := log, CachedReport(KeyOf(rs[i]), TimeOf(rs[i]));
        LogIsGood();
        var out := HandleOne(w, rs[i]);
        LogIsGood();
        ghost var tail :| Judged(providers, rs[i], hit, tail) && Only(log, Framing) == Only(before, Framing) + [BeginOf(rs[i], hit)] + tail;
        NewSegment(providers, before, log, rs[i], hit, tail, force);
        GrewPast(before, BeginOf(rs[i], hit), log);
        RunStep(providers, before, log, rs, i, ends);
        FoundStep(before, log, rs, i, ends, found, cache.entries, cache.ttl);
        RecordedSince(before, log, KeyOf(rs[i]), out);
        AnsweredStep(before, log, ends, outs, out);
        AllOutputStep(outs, out);
        assert log[..ends[0]] == before[..ends[0]];
        ends, outs, found := ends + [|log|], outs + [out], found + [cache.entries];
      }
      assert rs[..|rs|] == rs;
      LogIsGood();
      AllKnown(providers, log, rs, ends);
      RunAllSafe(providers, force, log, rs, ends);
    }

    /** What a pinned request adds to the log, in the terms of any request. */
    lemma PinnedAdds(before: Log, k: Key, e: PinnedEnd, req: PinnedRequest, cached: Option<Factors>, canFlush: bool)
      requires k == KeyOf(Pinned(req)) && req.provider in providers
      requires e == PINNED_REFUSED || exists marked :: e == PinnedEnding(providers[req.provider], force, cached, marked, req, canFlush)
      ensures PostCount(before + PinnedSends(k, e)) == PostCount(before) && Judged(providers, Pinned(req), cached, PinnedFrames(k, e))
      ensures e.admitted ==> Responded(before, before + PinnedSends(k, e), k)
      ensures !e.admitted ==> forall out :: PinnedAnswers(false, req, canFlush, out) ==> OneError(out)
    {
      hide PinnedAdmitted, PinnedFailsToDecrypt, PinnedLeaks, PinnedGoesOut, RelayAnswers;
      assert before + [] == before;
      if e.admitted {
        Extended(before, Response(k, e.report));
      }
    }

    lemma JudgedExactly(k: Key, p: Provider, req: Request)
      requires k == PairOf(req) && req.provider in providers && p == providers[req.provider]
      ensures Judged(providers, Direct(req), CachedReport(k, req.now), [])
      ensures Judged(providers, Direct(req), CachedReport(k, req.now), JudgedBy(k, p, req))
    {
      hide Hit, BuildReport;
    }

    lemma ValidStores()
      requires Valid()
      ensures Stores()
    {
    }

    lemma LogIsGood()
      requires Valid()
      ensures AllGood(log, providers, force) && checked == CheckedIn(log) && frames == Only(log, Framing) && sends == Only(log, Sending)
    {
    }
  }

  /** A provider that needs E2EE gets no body without it. */
  lemma NoPlaintextBody(p: Provider, e2eeActive: bool, raw: Option<Raw>, cached: Option<string>, round: Round)
    ensures Builds(p, e2eeActive, raw, cached, round) && p.e2ee ==> e2eeActive
  {
  }

  /** The last attempt is not tried again. */
  lemma LastTry(p: Provider, e2eeActive: bool, raw: Option<Raw>, freshRaw: Option<Raw>, cached: Option<string>, round: Round)
    ensures TryEnd(p, e2eeActive, raw, freshRaw, true, cached, round) != Retried
  {
  }

  /** The domain whose pinned hashes are evicted, if one was resolved. */
  function Domains(domain: Option<string>): set<string> {
    if domain.Some? && domain.value != "" then {domain.value} else {}
  }

  function CryptoOf(h: Option<Handle>): Option<Crypto> {
    if h.Some? then Some(h.value.crypto) else None
  }

  function PayloadOf(h: Option<Handle>, body: string): Posted {
    if h.Some? then Ciphertext(h.value.id, h.value.key) else Plaintext(body)
  }

  /** The failures of a request that got as far as the upstream. */
  predicate FromRelay(status: Status) {
    status.UpstreamFailed? || status.UpstreamStatus? || status in {SessionMissing, DecryptFailed, RelayFailure}
  }

  /** What an attempt's end makes of the request. */
  function FateOf(next: Next): Fate {
    match next
    case Again => TryAgain
    case Return(status) => if status == DecryptFailed then Unwrappable else Lost
    case Ended(outcome) => if outcome == Relayed then Served else if outcome == DecryptionFailed then Undecrypted else Lost
  }

  /** The failure marks after those of one request have been lifted and set. */
  function Turned(marks: set<Key>, k: Key, lifts: bool, sets: bool): set<Key> {
    (marks - if lifts then {k} else {}) + if sets then {k} else {}
  }

  lemma NotTurned(turns: Log, marks: set<Key>, k: Key)
    ensures turns + Lifting(k, false) + Marking(k, false) == turns && Turned(marks, k, false, false) == marks
  {
  }

  /** An attempt marks its pair for what did not unwrap, its conclusion for what did not decrypt. */
  lemma MarkedOnce(turns: Log, marks: set<Key>, k: Key, fate: Fate, chutes: bool)
    ensures turns + Marking(k, fate == Unwrappable) + Marking(k, fate == Undecrypted && !chutes) == turns + Marking(k, SetsMark(fate, chutes))
    ensures Turned(marks + if fate == Unwrappable then {k} else {}, k, false, fate == Undecrypted && !chutes) == Turned(marks, k, false, SetsMark(fate, chutes))
    ensures fate == TryAgain ==> turns + Marking(k, fate == Unwrappable) == turns
  {
  }

  /**
   Only the mark of this pair moves: it is set exactly if decryption failed, which for Chutes it need not be,
   and lifted only by an attestation of the request's own.
   */
  ghost predicate MarksMoved(before: set<Key>, after: set<Key>, k: Key, p: Provider, status: Status, own: bool) {
    && (status == DecryptFailed && !(p.hasPool && p.skipSigningKeyCache) ==> k in after)
    && (forall j <- after :: j in before || (j == k && status == DecryptFailed))
    && (forall j <- before :: j in after || (j == k && own))
  }

  lemma TurnedTwice(marks: set<Key>, k: Key, lifts: bool, sets: bool)
    ensures Turned(Turned(marks, k, lifts, false), k, false, sets) == Turned(marks, k, lifts, sets)
  {
  }

  function Lifting(k: Key, lifts: bool): Log {
    if lifts then [Lift(k)] else []
  }

  /** What a request that sets a mark, or does not, adds to the marks set and lifted. */
  function Marking(k: Key, marks: bool): Log {
    if marks then [Mark(k)] else []
  }

  /** The status a request ends with, given what became of it at its upstream. */
  predicate Concluded(status: Status, fate: Fate) {
    && (status == Fine <==> fate == Served)
    && (status == DecryptFailed <==> fate == Unwrappable || fate == Undecrypted)
    && (status == Fine || FromRelay(status))
  }

  /** How an attempt's end, what it heard, and the client's answer so far belong together. */
  ghost predicate Settled(next: Next, answer: Answer, last: bool, h: Heard, req: Request, n: nat, canFlush: bool) {
    match next
    case Again => !last && answer == Silent
    case Return(status) =>
      && FromRelay(status)
      && if Answering(h) then h.reply.status != 200 && answer == Passed(h.reply.status) else answer.ErrorOnly? && answer.e.HttpError?
    case Ended(outcome) =>
      && h.Heard? && Reads(h.crypto, h.reply) && outcome == ReadEnd(h.crypto, h.reply, req, canFlush)
      && answer.FromAttempt? && answer.attempt == n && Relays(h.crypto, h.reply, req, canFlush, answer.out)
  }

  lemma SettledAnswer(next: Next, answer: Answer, last: bool, h: Heard, req: Request, n: nat, canFlush: bool)
    requires Settled(next, answer, last, h, req, n, canFlush)
    ensures next.Again? ==> !last && answer == Silent
    ensures next.Return? ==> FromRelay(next.status) && AnswerIs(answer, n, h, req, canFlush)
    ensures next.Ended? ==>
              && h.Heard? && Reads(h.crypto, h.reply) && next.outcome == ReadEnd(h.crypto, h.reply, req, canFlush)
              && answer.FromAttempt? && answer.attempt == n && Relays(h.crypto, h.reply, req, canFlush, answer.out)
  {
  }

  lemma NothingSettles(req: Request, n: nat, canFlush: bool, kind: string)
    ensures !Answering(Nothing) && Settled(Again, Silent, false, Nothing, req, n, canFlush)
    ensures forall answer: Answer, last ::
              answer.ErrorOnly? && answer.e.HttpError? ==> Settled(Return(UpstreamFailed(kind)), answer, last, Nothing, req, n, canFlush)
  {
  }

  lemma NothingIsError(answer: Answer, n: nat, req: Request, canFlush: bool)
    ensures AnswerIs(answer, n, Nothing, req, canFlush) ==> answer.ErrorOnly? && answer.e.HttpError?
  {
  }

  /** An answer that is more than an error comes with a response on record. */
  lemma AnswerOnRecord(answer: Answer, end: Ending, before: Log, after: Log, k: Key, report: Option<Factors>, req: Request, canFlush: bool)
    requires AnswerIs(answer, end.attempt, end.heard, req, canFlush)
    requires Answering(end.heard) ==> PostedAndResponded(before, after, k, report)
    ensures OneError(Output(answer)) || Responded(before, after, k)
  {
    hide Answering, ReadEnd, Relays;
  }

  function PinnedFrames(k: Key, e: PinnedEnd): Log {
    if e.judged then [Attested(k, e.report, e.own)] else []
  }

  function PinnedSends(k: Key, e: PinnedEnd): Log {
    if e.admitted then [Response(k, e.report)] else []
  }

  lemma FateHeard(h: Heard, req: Request, canFlush: bool, last: bool)
    ensures FateOfHeard(h, req, canFlush, last) ==
            if h.Nothing? then if last then Lost else TryAgain else ReplyFate(h.crypto, h.reply, req.stream, req.endpoint, canFlush, last)
  {
    hide ReplyFate;
  }

  lemma RespondedAfterPost(before: Log, sends: Log, k: Key, payload: Posted, report: Option<Factors>)
    requires |before| < |sends| && PostedLast(sends, k, payload)
    ensures PostedAndResponded(before, sends + [Response(k, report)], k, report)
  {
  }

  /** A body was posted for `k` last. */
  predicate PostedLast(sends: Log, k: Key, payload: Posted) {
    |sends| > 0 && sends[|sends| - 1].Post? && sends[|sends| - 1].key == k && sends[|sends| - 1].payload == payload
  }

  predicate WroteError(before: seq<Emit>, after: seq<Emit>) {
    |after| == |before| + 1 && after[..|before|] == before && after[|before|].HttpError?
  }

  method RelayResponse(w: ResponseWriter, crypto: Option<Crypto>, body: Body, stream: bool, endpoint: FieldPolicy.Endpoint)
      returns (outcome: Outcome, ghost out: seq<Emit>)
    requires Relayable(crypto)
    modifies w
    ensures w.out == old(w.out) + out && RelayAnswers(crypto, body, stream, endpoint, w.canFlush, out, outcome)
  {
    hide Relay.StreamOutput, Relay.ReassembledOutput, ChutesRelay.Run, ChutesRelay.Texts;
    ghost var before := w.out;
    match crypto {
      case Some(ChutesCrypto(c)) =>
        if stream {
          var stats;
          outcome, stats := ChutesRelay.RelayStreamChutes(w, body.events, body.failed, c.value);
        } else {
          outcome := ChutesRelay.RelayNonStreamChutes(w, body.blob, c.value);
        }
      case Some(FieldCrypto(s)) =>
        if stream {
          outcome := Relay.RelayStream(w, body.sse, body.failed, Some(s), endpoint);
        } else {
          outcome := Relay.RelayReassembledNonStream(w, body.sse, body.failed, s, endpoint);
          out :| w.out == before + out && Relay.ReassembledOutput(body.sse, body.failed, s, endpoint, out, outcome);
          return;
        }
      case None =>
        if stream {
          outcome := Relay.RelayStream(w, body.sse, body.failed, None, endpoint);
        } else if body.blob.None? {
          w.Write(HttpError(502, "failed to read upstream response"));
          outcome := RelayFailed;
        } else {
          w.Write(Header("application/json"));
          w.Write(Text(body.blob.value));
          outcome := Relayed;
        }
    }
    out := w.out[|before|..];
  }

  /** The reply, and the session that reads it, are those of this attempt. */
  ghost predicate CameFrom(round: Round, reply: Reply, handle: Option<Handle>) {
    reply.Reply? && round.reply == reply && (handle.Some? ==> round.encrypted == Some(handle.value.crypto))
  }

  function Ids(h: Option<Handle>): set<nat> {
    match h
    case Some(handle) => {handle.id}
    case None => {}
  }

  const UNBOUND: string := "E2EE required but REPORTDATA binding not verified; refusing plaintext"
  const PROMOTED_DETAIL: string := "E2EE roundtrip succeeded via proxy"
  const PINNED_DETAIL: string := "E2EE roundtrip succeeded via pinned connection"
  const FETCH_FAILED: string := "attestation fetch failed; see server logs"
  const BLOCKED: string := "blocked attestation report"
  const E2EE_FAILED_DETAIL: string := "E2EE decryption failed (see server logs)"

  lemma RemoveOverwritten<V>(m: TtlCache.Contents<V>, k: Key, e: TtlCache.Entry<V>)
    ensures m[k := e] - {k} == m - {k}
  {
  }
}
