/** The cache of attested TLS key hashes per domain: two levels, both bounded. */
module SpkiCache {
  import opened Bytes

  const MAX_PER_DOMAIN: nat := 16
  const MAX_DOMAINS: nat := 1024

  /** The hashes of one domain with the time each was added. */
  type Bucket = map<string, int>
  type Domains = map<string, Bucket>

  function Live(b: Bucket, ttl: int, now: int): Bucket {
    map s <- b | now - b[s] <= ttl :: b[s]
  }

  ghost predicate Oldest(b: Bucket, s: string) {
    s in b && forall t <- b :: b[s] <= b[t]
  }

  /** Some entry of `d` is as old as any entry anywhere. */
  ghost predicate OldestDomain(m: Domains, d: string) {
    d in m && exists s <- m[d] :: forall d' <- m :: forall t <- m[d'] :: m[d][s] <= m[d'][t]
  }

  /** The bucket before adding: expired hashes go, and an oldest one if sixteen are still left. */
  ghost predicate Trimmed(b: Bucket, t: Bucket, ttl: int, now: int) {
    var live := Live(b, ttl, now);
    if |live| < MAX_PER_DOMAIN then t == live
    else exists s :: Oldest(live, s) && t == live - {s}
  }

  ghost predicate BucketAdded(b: Bucket, b': Bucket, spki: string, ttl: int, now: int) {
    exists t :: Trimmed(b, t, ttl, now) && b' == t[spki := now]
  }

  /** The domains before a bucket for a new one is made: an oldest domain goes if the cache is full. */
  ghost predicate RoomMade(m: Domains, m': Domains, domain: string) {
    if domain in m || |m| < MAX_DOMAINS then m' == m
    else exists v :: OldestDomain(m, v) && m' == m - {v}
  }

  /** At most 1024 domains, each with one to sixteen hashes. */
  ghost predicate Bounded(m: Domains) {
    |m| <= MAX_DOMAINS && forall d <- m :: d != "" && BoundedBucket(m[d])
  }

  ghost predicate BoundedBucket(b: Bucket) {
    0 < |b| <= MAX_PER_DOMAIN && "" !in b
  }

  lemma BoundedAdded(m: Domains, domain: string, t: Bucket, spki: string, now: int)
    requires Bounded(m) && (domain in m || |m| < MAX_DOMAINS) && domain != ""
    requires |t| < MAX_PER_DOMAIN && "" !in t && spki != ""
    ensures Bounded(m[domain := t[spki := now]])
  {
    var b := t[spki := now];
    assert b.Keys == t.Keys + {spki};
    assert m[domain := b].Keys == m.Keys + {domain};
  }

  // ---------------------------------------------------------------- histories

  /** What callers did. An Add names the domain it evicts to make room for a new one, and the hash it drops from a full bucket. */
  datatype Op =
    | Add(domain: string, spki: string, at: int, evicted: Option<string>, dropped: Option<string>)
    | Delete(domain: string)

  function BucketOf(m: Domains, domain: string): Bucket {
    if domain in m then m[domain] else map[]
  }

  function Without<T>(m: map<string, T>, k: Option<string>): map<string, T> {
    if k.Some? then m - {k.value} else m
  }

  function Apply(m: Domains, op: Op, ttl: int): Domains {
    match op
    case Add(domain, spki, at, evicted, dropped) =>
      Without(m, evicted)[domain := Without(Live(BucketOf(Without(m, evicted), domain), ttl, at), dropped)[spki := at]]
    case Delete(domain) => m - {domain}
  }

  function Replay(h: seq<Op>, ttl: int): Domains {
    if h == [] then map[] else Apply(Replay(h[..|h| - 1], ttl), h[|h| - 1], ttl)
  }

  /** What an Add may give up: an oldest domain for a new one at capacity, an oldest live hash of a full bucket. */
  ghost predicate Allowed(m: Domains, op: Op, ttl: int) {
    op.Add? ==>
      var live := Live(BucketOf(Without(m, op.evicted), op.domain), ttl, op.at);
      && (op.evicted.Some? <==> op.domain !in m && |m| >= MAX_DOMAINS)
      && (op.evicted.Some? ==> OldestDomain(m, op.evicted.value))
      && (op.dropped.Some? <==> |live| >= MAX_PER_DOMAIN)
      && (op.dropped.Some? ==> Oldest(live, op.dropped.value))
  }

  ghost predicate Legal(h: seq<Op>, ttl: int) {
    forall i :: 0 <= i < |h| ==> Allowed(Replay(h[..i], ttl), h[i], ttl)
  }

  /** No hash was added after `now`. */
  ghost predicate InOrder(h: seq<Op>, now: int) {
    forall i :: 0 <= i < |h| && h[i].Add? ==> h[i].at <= now
  }

  lemma LegalExtend(h: seq<Op>, op: Op, ttl: int)
    requires Legal(h, ttl) && Allowed(Replay(h, ttl), op, ttl)
    ensures Legal(h + [op], ttl) && Replay(h + [op], ttl) == Apply(Replay(h, ttl), op, ttl)
  {
    hide Allowed;
    assert (h + [op])[..|h|] == h;
    forall i | 0 <= i < |h| + 1
      ensures Allowed(Replay((h + [op])[..i], ttl), (h + [op])[i], ttl)
    {
      assert i < |h| ==> (h + [op])[..i] == h[..i];
    }
  }

  // ---------------------------------------------------------------- the specification

  /** When the hash was last added to the domain, unless the domain was deleted since. */
  function Latest(h: seq<Op>, domain: string, spki: string): Option<int> {
    if h == [] then None
    else
      var op := h[|h| - 1];
      if op.Add? && op.domain == domain && op.spki == spki then Some(op.at)
      else if op.Delete? && op.domain == domain then None
      else Latest(h[..|h| - 1], domain, spki)
  }

  /** The cache holds the hash with this time. */
  predicate Holds(m: Domains, domain: string, spki: string, at: int) {
    domain in m && spki in m[domain] && m[domain][spki] == at
  }

  /** The cache holds nothing but latest additions. */
  lemma {:induction false} HeldIsLatest(h: seq<Op>, domain: string, spki: string, ttl: int)
    requires domain in Replay(h, ttl) && spki in Replay(h, ttl)[domain]
    ensures Latest(h, domain, spki) == Some(Replay(h, ttl)[domain][spki])
  {
    var op := h[|h| - 1];
    if op.domain != domain || (op.Add? && op.spki != spki) {
      HeldIsLatest(h[..|h| - 1], domain, spki, ttl);
    }
  }

  /** The operation, an Add to the same domain, found the hash expired at its own time. */
  ghost predicate Prunes(op: Op, domain: string, at: int, ttl: int) {
    op.Add? && op.domain == domain && op.at - at > ttl
  }

  /** The operation, an Add to the same domain, dropped the hash as an oldest live one of a full bucket. */
  ghost predicate Drops(m: Domains, op: Op, domain: string, spki: string, ttl: int) {
    && op.Add? && op.domain == domain && domain in m && op.dropped == Some(spki)
    && |Live(m[domain], ttl, op.at)| >= MAX_PER_DOMAIN && Oldest(Live(m[domain], ttl, op.at), spki)
  }

  /** The operation, an Add of a new domain at capacity, evicted this one, which held a globally oldest hash. */
  ghost predicate Evicts(m: Domains, op: Op, domain: string) {
    op.Add? && op.domain !in m && |m| >= MAX_DOMAINS && op.evicted == Some(domain) && OldestDomain(m, domain)
  }

  /** The `i`-th operation lost the hash, which was held until then. */
  ghost predicate Loses(h: seq<Op>, i: nat, domain: string, spki: string, at: int, ttl: int)
    requires i < |h|
  {
    var m := Replay(h[..i], ttl);
    && Holds(m, domain, spki, at)
    && (Prunes(h[i], domain, at, ttl) || Drops(m, h[i], domain, spki, ttl) || Evicts(m, h[i], domain))
  }

  /** An added hash goes missing only by expiry, as an oldest live one of a full bucket, or with a domain evicted at capacity. */
  lemma {:induction false} LossExplained(h: seq<Op>, domain: string, spki: string, ttl: int)
    requires Legal(h, ttl) && Latest(h, domain, spki).Some? && !Holds(Replay(h, ttl), domain, spki, Latest(h, domain, spki).value)
    ensures exists i :: 0 <= i < |h| && Loses(h, i, domain, spki, Latest(h, domain, spki).value, ttl)
  {
    hide Replay, Legal, Allowed, Prunes, Drops, Evicts, Loses;
    NothingToLose(h, domain, spki, ttl);
    var n := |h| - 1;
    var init, at := h[..n], Latest(h, domain, spki).value;
    LegalInit(h, ttl);
    if Holds(Replay(init, ttl), domain, spki, at) {
      LostLast(h, domain, spki, at, ttl);
    } else {
      LossExplained(init, domain, spki, ttl);
      var i :| 0 <= i < n && Loses(init, i, domain, spki, at, ttl);
      LosesLater(h, i, domain, spki, at, ttl);
    }
  }

  /** The last operation of a history that lost a hash neither added it nor deleted its domain. */
  lemma NothingToLose(h: seq<Op>, domain: string, spki: string, ttl: int)
    requires Latest(h, domain, spki).Some? && !Holds(Replay(h, ttl), domain, spki, Latest(h, domain, spki).value)
    ensures h != [] && Latest(h[..|h| - 1], domain, spki) == Latest(h, domain, spki)
    ensures !(h[|h| - 1].domain == domain && (h[|h| - 1].Delete? || h[|h| - 1].spki == spki))
  {
  }

  lemma LostLast(h: seq<Op>, domain: string, spki: string, at: int, ttl: int)
    requires h != [] && Allowed(Replay(h[..|h| - 1], ttl), h[|h| - 1], ttl)
    requires Holds(Replay(h[..|h| - 1], ttl), domain, spki, at) && !Holds(Replay(h, ttl), domain, spki, at)
    requires !(h[|h| - 1].domain == domain && (h[|h| - 1].Delete? || h[|h| - 1].spki == spki))
    ensures Loses(h, |h| - 1, domain, spki, at, ttl)
  {
    hide Allowed, Prunes, Drops, Evicts;
    LostNow(Replay(h[..|h| - 1], ttl), h[|h| - 1], domain, spki, at, ttl);
  }

  lemma LosesLater(h: seq<Op>, i: nat, domain: string, spki: string, at: int, ttl: int)
    requires i < |h| - 1 && Loses(h[..|h| - 1], i, domain, spki, at, ttl)
    ensures Loses(h, i, domain, spki, at, ttl)
  {
    hide Replay, Prunes, Drops, Evicts;
    assert h[..|h| - 1][..i] == h[..i];
  }

  lemma LostNow(m: Domains, op: Op, domain: string, spki: string, at: int, ttl: int)
    requires Allowed(m, op, ttl) && Holds(m, domain, spki, at) && !Holds(Apply(m, op, ttl), domain, spki, at)
    requires op.Add? && !(op.domain == domain && op.spki == spki)
    ensures Prunes(op, domain, at, ttl) || Drops(m, op, domain, spki, ttl) || Evicts(m, op, domain)
  {
    if op.domain == domain {
      assert op.evicted.None?;
      var live := Live(m[domain], ttl, op.at);
      assert spki in live ==> live[spki] == at;
    }
  }

  /** When time does not run backwards, a hash that is still live is lost only by capacity. */
  lemma LiveLossIsCapacity(h: seq<Op>, domain: string, spki: string, ttl: int, now: int)
    requires Legal(h, ttl) && InOrder(h, now) && Latest(h, domain, spki).Some?
    requires !Holds(Replay(h, ttl), domain, spki, Latest(h, domain, spki).value)
    ensures now - Latest(h, domain, spki).value > ttl
            || exists i :: 0 <= i < |h| && (Drops(Replay(h[..i], ttl), h[i], domain, spki, ttl) || Evicts(Replay(h[..i], ttl), h[i], domain))
  {
    hide Replay, Legal, Latest, Drops, Evicts;
    LossExplained(h, domain, spki, ttl);
  }

  lemma LegalInit(h: seq<Op>, ttl: int)
    requires Legal(h, ttl) && h != []
    ensures Legal(h[..|h| - 1], ttl) && Allowed(Replay(h[..|h| - 1], ttl), h[|h| - 1], ttl)
  {
    hide Replay, Allowed;
    var init := h[..|h| - 1];
    forall i | 0 <= i < |init|
      ensures Allowed(Replay(init[..i], ttl), init[i], ttl)
    {
      assert init[..i] == h[..i];
    }
  }

  // ---------------------------------------------------------------- the cache

  class Cache {
    const ttl: int
    var domains: Domains

    ghost var history: seq<Op>

    ghost predicate Valid()
      reads this
    {
      Bounded(domains) && Legal(history, ttl) && domains == Replay(history, ttl)
    }

    constructor (ttl: int)
      ensures Valid() && this.ttl == ttl && domains == map[] && history == []
    {
      this.ttl, domains, history := ttl, map[], [];
    }

    /**
     A hit is an Add within the TTL whose domain has not been deleted since. A miss means that there
     is none, that it has expired, or that it was lost to a full bucket or with an evicted domain.
     */
    method Contains(domain: string, spki: string, now: int) returns (found: bool)
      requires Valid()
      ensures found <==> domain in domains && spki in domains[domain] && now - domains[domain][spki] <= ttl
      ensures found ==> var l := Latest(history, domain, spki); l.Some? && now - l.value <= ttl
      ensures !found && InOrder(history, now) ==>
                var l := Latest(history, domain, spki);
                || l.None? || now - l.value > ttl
                || exists i :: 0 <= i < |history| && (Drops(Replay(history[..i], ttl), history[i], domain, spki, ttl)
                                                      || Evicts(Replay(history[..i], ttl), history[i], domain))
    {
      Explained(domain, spki, now);
      hide Replay, Latest, Legal, Drops, Evicts, InOrder;
      if domain !in domains {
        return false;
      }
      var hashes := domains[domain];
      var todo := hashes.Keys;
      while todo != {}
        invariant todo <= hashes.Keys && (spki in hashes ==> spki in todo)
        decreases todo
      {
        var k :| k in todo;
        todo := todo - {k};
        if k == spki {
          return now - hashes[k] <= ttl;
        }
      }
      found := false;
    }

    lemma Explained(domain: string, spki: string, now: int)
      requires Valid()
      ensures domain in domains && spki in domains[domain] ==> Latest(history, domain, spki) == Some(domains[domain][spki])
      ensures !(domain in domains && spki in domains[domain]) && InOrder(history, now) ==>
                var l := Latest(history, domain, spki);
                || l.None? || now - l.value > ttl
                || exists i :: 0 <= i < |history| && (Drops(Replay(history[..i], ttl), history[i], domain, spki, ttl)
                                                      || Evicts(Replay(history[..i], ttl), history[i], domain))
    {
      hide Latest, Replay, Legal, Drops, Evicts, InOrder;
      if domain in domains && spki in domains[domain] {
        HeldIsLatest(history, domain, spki, ttl);
      } else if Latest(history, domain, spki).Some? && InOrder(history, now) {
        LiveLossIsCapacity(history, domain, spki, ttl, now);
      }
    }

    method Add(domain: string, spki: string, now: int)
      requires Valid() && domain != "" && spki != ""
      modifies this
      ensures Valid() && exists evicted, dropped :: history == old(history) + [Op.Add(domain, spki, now, evicted, dropped)]
      ensures exists room :: RoomMade(old(domains), room, domain) && domain in domains
                             && domains == room[domain := domains[domain]]
                             && BucketAdded(BucketOf(room, domain), domains[domain], spki, ttl, now)
    {
      hide RoomMade, Trimmed, Replay, Legal;
      ghost var evicted := MakeRoom(domain);
      ghost var room := domains;
      var bucket: Bucket := if domain in domains then domains[domain] else map[];
      assert domain in domains ==> BoundedBucket(bucket);
      var trimmed;
      ghost var dropped;
      trimmed, dropped := Trim(bucket, now);
      BoundedAdded(room, domain, trimmed, spki, now);
      assert BucketAdded(bucket, trimmed[spki := now], spki, ttl, now);
      domains := domains[domain := trimmed[spki := now]];
      LegalExtend(history, Op.Add(domain, spki, now, evicted, dropped), ttl);
      history := history + [Op.Add(domain, spki, now, evicted, dropped)];
      hide Bounded;
      assert domains == room[domain := domains[domain]];
    }

    /** Evicts a domain when a new one would exceed the cap. */
    method MakeRoom(domain: string) returns (ghost evicted: Option<string>)
      requires Bounded(domains)
      modifies this`domains
      ensures Bounded(domains) && RoomMade(old(domains), domains, domain) && domains == Without(old(domains), evicted)
      ensures evicted.Some? <==> domain !in old(domains) && |old(domains)| >= MAX_DOMAINS
      ensures evicted.Some? ==> OldestDomain(old(domains), evicted.value)
      ensures domain in domains || |domains| < MAX_DOMAINS
      ensures domain in old(domains) <==> domain in domains
    {
      evicted := None;
      if domain !in domains && |domains| >= MAX_DOMAINS {
        evicted := EvictOldestDomain();
      }
    }

    method Trim(bucket: Bucket, now: int) returns (t: Bucket, ghost dropped: Option<string>)
      requires |bucket| <= MAX_PER_DOMAIN && "" !in bucket
      ensures Trimmed(bucket, t, ttl, now) && |t| < MAX_PER_DOMAIN && t == Without(Live(bucket, ttl, now), dropped)
      ensures dropped.Some? <==> |Live(bucket, ttl, now)| >= MAX_PER_DOMAIN
      ensures dropped.Some? ==> Oldest(Live(bucket, ttl, now), dropped.value)
      ensures forall s <- t :: s in bucket && t[s] == bucket[s]
    {
      t := Prune(bucket, now);
      dropped := None;
      if |t| >= MAX_PER_DOMAIN {
        t, dropped := DropOldest(t);
      }
    }

    method DeleteDomain(domain: string)
      requires Valid()
      modifies this
      ensures Valid() && domains == old(domains) - {domain} && history == old(history) + [Op.Delete(domain)]
    {
      assert domain in domains ==> (domains - {domain}).Keys == domains.Keys - {domain};
      assert domain !in domains ==> domains - {domain} == domains;
      LegalExtend(history, Op.Delete(domain), ttl);
      domains := domains - {domain};
      history := history + [Op.Delete(domain)];
    }

    method Prune(b: Bucket, now: int) returns (r: Bucket)
      ensures r == Live(b, ttl, now) && |r| <= |b|
    {
      r := b;
      var todo := b.Keys;
      while todo != {}
        invariant todo <= r.Keys && |r| <= |b|
        invariant forall s <- r :: s in b && r[s] == b[s] && (s in todo || now - b[s] <= ttl)
        invariant forall s <- b :: s in r || now - b[s] > ttl
        decreases todo
      {
        var s :| s in todo;
        todo := todo - {s};
        if now - b[s] > ttl {
          assert (r - {s}).Keys == r.Keys - {s};
          r := r - {s};
        }
      }
    }

    method DropOldest(b: Bucket) returns (r: Bucket, ghost dropped: Option<string>)
      requires b != map[] && "" !in b
      ensures dropped.Some? && Oldest(b, dropped.value) && r == b - {dropped.value}
      ensures |r| == |b| - 1
    {
      var oldestKey, oldestAt := "", 0;
      var todo := b.Keys;
      while todo != {}
        invariant todo <= b.Keys && (oldestKey == "" <==> todo == b.Keys)
        invariant oldestKey != "" ==> oldestKey in b && b[oldestKey] == oldestAt
        invariant oldestKey != "" ==> forall t <- b.Keys - todo :: oldestAt <= b[t]
        decreases todo
      {
        var s :| s in todo;
        todo := todo - {s};
        if oldestKey == "" || b[s] < oldestAt {
          oldestKey, oldestAt := s, b[s];
        }
      }
      assert Oldest(b, oldestKey);
      assert (b - {oldestKey}).Keys == b.Keys - {oldestKey};
      r, dropped := b - {oldestKey}, Some(oldestKey);
    }

    method EvictOldestDomain() returns (ghost evicted: Option<string>)
      requires Bounded(domains) && |domains| == MAX_DOMAINS
      modifies this`domains
      ensures Bounded(domains) && |domains| < MAX_DOMAINS
      ensures evicted.Some? && OldestDomain(old(domains), evicted.value) && domains == old(domains) - {evicted.value}
    {
      var victim, victimOldest := "", 0;
      ghost var oldest := "";
      var todo := domains.Keys;
      while todo != {}
        invariant todo <= domains.Keys && (victim == "" <==> todo == domains.Keys)
        invariant victim != "" ==> victim in domains && oldest in domains[victim] && domains[victim][oldest] == victimOldest
        invariant victim != "" ==> forall d <- domains.Keys - todo :: forall t <- domains[d] :: victimOldest <= domains[d][t]
        decreases todo
      {
        var d :| d in todo;
        var inner := domains[d].Keys;
        while inner != {}
          invariant inner <= domains[d].Keys
          invariant victim == "" ==> inner == domains[d].Keys && todo == domains.Keys
          invariant victim != "" ==> victim in domains && oldest in domains[victim] && domains[victim][oldest] == victimOldest
          invariant victim != "" ==> forall e <- domains.Keys - todo :: forall t <- domains[e] :: victimOldest <= domains[e][t]
          invariant victim != "" ==> forall t <- domains[d].Keys - inner :: victimOldest <= domains[d][t]
          decreases inner
        {
          var s :| s in inner;
          inner := inner - {s};
          if victim == "" || domains[d][s] < victimOldest {
            victim, victimOldest, oldest := d, domains[d][s], s;
          }
        }
        todo := todo - {d};
      }
      assert domains != map[] && BoundedBucket(domains[victim]);
      assert OldestDomain(domains, victim);
      assert (domains - {victim}).Keys == domains.Keys - {victim};
      domains, evicted := domains - {victim}, Some(victim);
    }
  }
}
