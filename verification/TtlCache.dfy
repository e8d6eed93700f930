/**
 The bounded caches of attestation reports, signing keys and recent failures, keyed by provider
 and model. Time is passed in as a positive number of nanoseconds; zero is the unset time.
 */
module TtlCache {
  import opened Bytes
  import opened Sets

  const MAX_ENTRIES: nat := 1000

  datatype Key = Key(provider: string, model: string)

  datatype Entry<V> = Entry(value: V, at: int)

  type Contents<V> = map<Key, Entry<V>>

  predicate Expired<V>(e: Entry<V>, ttl: int, now: int) {
    now - e.at > ttl
  }

  /** What is left once the expired entries are gone. */
  function Live<V>(m: Contents<V>, ttl: int, now: int): Contents<V> {
    map j <- m | !Expired(m[j], ttl, now) :: m[j]
  }

  /** A new key finds no room. */
  predicate Full<V>(m: Contents<V>, k: Key) {
    k !in m && |m| >= MAX_ENTRIES
  }

  ghost predicate Oldest<V>(m: Contents<V>, k: Key) {
    k in m && forall j <- m :: m[k].at <= m[j].at
  }

  /**
   What a Put makes of the contents: in a full cache the expired entries go, and then one oldest
   entry if that was not enough.
   */
  ghost predicate Stored<V>(m: Contents<V>, m': Contents<V>, k: Key, v: V, now: int, ttl: int) {
    var live := Live(m, ttl, now);
    if !Full(m, k) then m' == m[k := Entry(v, now)]
    else if |live| < MAX_ENTRIES then m' == live[k := Entry(v, now)]
    else exists victim :: Oldest(live, victim) && m' == (live - {victim})[k := Entry(v, now)]
  }

  // ---------------------------------------------------------------- histories

  /** What callers did. A Put that finds the cache full of live entries names the one it gave up. */
  datatype Op<V> =
    | Put(key: Key, value: V, at: int, victim: Option<Key>)
    | Delete(key: Key)

  function Apply<V>(m: Contents<V>, op: Op<V>, ttl: int): Contents<V> {
    match op
    case Put(k, v, at, victim) =>
      var live := if Full(m, k) then Live(m, ttl, at) else m;
      (if victim.Some? then live - {victim.value} else live)[k := Entry(v, at)]
    case Delete(k) => m - {k}
  }

  /** The contents a history leaves behind. */
  function Replay<V>(h: seq<Op<V>>, ttl: int): Contents<V> {
    if h == [] then map[] else Apply(Replay(h[..|h| - 1], ttl), h[|h| - 1], ttl)
  }

  /** A victim is an oldest live entry, given up only where no expired one makes room. */
  ghost predicate Allowed<V>(m: Contents<V>, op: Op<V>, ttl: int) {
    op.Put? ==>
      && op.at > 0
      && (op.victim.Some? <==> Full(m, op.key) && |Live(m, ttl, op.at)| >= MAX_ENTRIES)
      && (op.victim.Some? ==> Oldest(Live(m, ttl, op.at), op.victim.value))
  }

  ghost predicate Legal<V>(h: seq<Op<V>>, ttl: int) {
    forall i :: 0 <= i < |h| ==> Allowed(Replay(h[..i], ttl), h[i], ttl)
  }

  /** Time does not run backwards, from Put to Put and up to `now`. */
  ghost predicate InOrder<V>(h: seq<Op<V>>, now: int) {
    && (forall i :: 0 <= i < |h| && h[i].Put? ==> h[i].at <= now)
    && forall i, j :: 0 <= i < j < |h| && h[i].Put? && h[j].Put? ==> h[i].at <= h[j].at
  }

  lemma LegalExtend<V>(h: seq<Op<V>>, op: Op<V>, ttl: int)
    requires Legal(h, ttl) && Allowed(Replay(h, ttl), op, ttl)
    ensures Legal(h + [op], ttl) && Replay(h + [op], ttl) == Apply(Replay(h, ttl), op, ttl)
  {
    hide Allowed;
    assert (h + [op])[..|h|] == h;
    forall i | 0 <= i < |h| + 1
      ensures Allowed(Replay((h + [op])[..i], ttl), (h + [op])[i], ttl)
    {
      assert i < |h| ==> (h + [op])[..i] == h[..i];
    }
  }

  // ---------------------------------------------------------------- the specification

  /** The latest Put for `k` that no later Delete cancelled. */
  function Latest<V>(h: seq<Op<V>>, k: Key): Option<Entry<V>> {
    if h == [] then None
    else
      var op := h[|h| - 1];
      if op.Put? && op.key == k then Some(Entry(op.value, op.at))
      else if op.Delete? && op.key == k then None
      else Latest(h[..|h| - 1], k)
  }

  /** A cache holds nothing but latest writes. */
  lemma {:induction false} HeldIsLatest<V>(h: seq<Op<V>>, k: Key, ttl: int)
    requires k in Replay(h, ttl)
    ensures Latest(h, k) == Some(Replay(h, ttl)[k])
  {
    var op := h[|h| - 1];
    if op.key != k {
      HeldIsLatest(h[..|h| - 1], k, ttl);
    }
  }

  /** The `i`-th operation, a Put of another key into a full cache, removed the entry as an oldest live one. */
  ghost predicate Evicts<V>(h: seq<Op<V>>, i: nat, k: Key, e: Entry<V>, ttl: int)
    requires i < |h|
  {
    var m := Replay(h[..i], ttl);
    && k in m && m[k] == e
    && h[i].Put? && Full(m, h[i].key) && h[i].victim == Some(k)
    && |Live(m, ttl, h[i].at)| >= MAX_ENTRIES && Oldest(Live(m, ttl, h[i].at), k)
  }

  /** The `i`-th operation, a Put of another key into a full cache, removed the entry as expired at its own time. */
  ghost predicate Prunes<V>(h: seq<Op<V>>, i: nat, k: Key, e: Entry<V>, ttl: int)
    requires i < |h|
  {
    var m := Replay(h[..i], ttl);
    && k in m && m[k] == e
    && h[i].Put? && Full(m, h[i].key) && Expired(e, ttl, h[i].at)
  }

  /** A latest write goes missing only by expiry, or as an oldest live entry of a full cache. */
  lemma {:induction false} LossExplained<V>(h: seq<Op<V>>, k: Key, ttl: int)
    requires Legal(h, ttl) && Latest(h, k).Some? && k !in Replay(h, ttl)
    ensures exists i :: 0 <= i < |h| && (Prunes(h, i, k, Latest(h, k).value, ttl) || Evicts(h, i, k, Latest(h, k).value, ttl))
  {
    var n := |h| - 1;
    var init, e := h[..n], Latest(h, k).value;
    assert h[n].key != k;
    LegalInit(h, ttl);
    if k in Replay(init, ttl) {
      HeldIsLatest(init, k, ttl);
      LostNow(h, k, ttl);
    } else {
      LossExplained(init, k, ttl);
      hide Replay, Legal, Prunes, Evicts;
      var i :| 0 <= i < n && (Prunes(init, i, k, e, ttl) || Evicts(init, i, k, e, ttl));
      ExplainsLater(h, i, k, e, ttl);
    }
  }

  /** An operation on another key that removes this one prunes or evicts it. */
  lemma LostNow<V>(h: seq<Op<V>>, k: Key, ttl: int)
    requires h != [] && h[|h| - 1].key != k && Allowed(Replay(h[..|h| - 1], ttl), h[|h| - 1], ttl)
    requires k in Replay(h[..|h| - 1], ttl) && k !in Replay(h, ttl)
    ensures var e := Replay(h[..|h| - 1], ttl)[k]; Prunes(h, |h| - 1, k, e, ttl) || Evicts(h, |h| - 1, k, e, ttl)
  {
  }

  lemma ExplainsLater<V>(h: seq<Op<V>>, i: nat, k: Key, e: Entry<V>, ttl: int)
    requires i < |h| - 1
    ensures Prunes(h[..|h| - 1], i, k, e, ttl) ==> Prunes(h, i, k, e, ttl)
    ensures Evicts(h[..|h| - 1], i, k, e, ttl) ==> Evicts(h, i, k, e, ttl)
  {
    hide Replay;
    assert h[..|h| - 1][..i] == h[..i];
  }

  /** When time does not run backwards, a write still live at `now` is lost only by eviction. */
  lemma LiveLossIsEviction<V>(h: seq<Op<V>>, k: Key, ttl: int, now: int)
    requires Legal(h, ttl) && InOrder(h, now) && Latest(h, k).Some? && k !in Replay(h, ttl)
    ensures Expired(Latest(h, k).value, ttl, now) || exists i :: 0 <= i < |h| && Evicts(h, i, k, Latest(h, k).value, ttl)
  {
    hide Replay, Legal, Latest;
    LossExplained(h, k, ttl);
  }

  lemma LegalInit<V>(h: seq<Op<V>>, ttl: int)
    requires Legal(h, ttl) && h != []
    ensures Legal(h[..|h| - 1], ttl) && Allowed(Replay(h[..|h| - 1], ttl), h[|h| - 1], ttl)
  {
    hide Replay, Allowed;
    var init := h[..|h| - 1];
    forall i | 0 <= i < |init|
      ensures Allowed(Replay(init[..i], ttl), init[i], ttl)
    {
      assert init[..i] == h[..i];
    }
  }

  /** No legal history ever leaves more than the maximum behind. */
  lemma {:induction false} CapacityKept<V>(h: seq<Op<V>>, ttl: int)
    requires Legal(h, ttl)
    ensures |Replay(h, ttl)| <= MAX_ENTRIES
  {
    if h != [] {
      var init, op := h[..|h| - 1], h[|h| - 1];
      LegalInit(h, ttl);
      CapacityKept(init, ttl);
      hide Replay, Legal;
      ApplySize(Replay(init, ttl), op, ttl);
    }
  }

  lemma ApplySize<V>(m: Contents<V>, op: Op<V>, ttl: int)
    requires Allowed(m, op, ttl) && |m| <= MAX_ENTRIES
    ensures |Apply(m, op, ttl)| <= MAX_ENTRIES
  {
    if op.Put? {
      LiveSize(m, ttl, op.at);
      var live := if Full(m, op.key) then Live(m, ttl, op.at) else m;
      if op.victim.Some? {
        assert (live - {op.victim.value}).Keys == live.Keys - {op.victim.value};
      }
      var room := if op.victim.Some? then live - {op.victim.value} else live;
      assert Apply(m, op, ttl).Keys == room.Keys + {op.key};
    } else {
      assert Apply(m, op, ttl).Keys == m.Keys - {op.key};
      SubsetSize(m.Keys - {op.key}, m.Keys);
    }
  }

  lemma LiveSize<V>(m: Contents<V>, ttl: int, now: int)
    ensures |Live(m, ttl, now)| <= |m|
  {
    SubsetSize(Live(m, ttl, now).Keys, m.Keys);
  }

  // ---------------------------------------------------------------- the cache

  class Cache<V> {
    const ttl: int
    var entries: Contents<V>

    ghost var history: seq<Op<V>>

    ghost predicate Valid()
      reads this
    {
      && entries == Replay(history, ttl)
      && Legal(history, ttl)
      && (forall k <- entries :: entries[k].at > 0)
      && |entries| <= MAX_ENTRIES
    }

    constructor (ttl: int)
      ensures Valid() && this.ttl == ttl && history == [] && entries == map[]
    {
      this.ttl, entries, history := ttl, map[], [];
    }

    /**
     A hit is the latest Put for the key, made within the TTL and not deleted since. A miss means
     that there is none, that it has expired, or that it was evicted as an oldest live entry.
     */
    method Get(k: Key, now: int) returns (r: Option<V>)
      requires Valid()
      ensures r.Some? <==> k in entries && !Expired(entries[k], ttl, now)
      ensures r.Some? ==>
                var l := Latest(history, k);
                l.Some? && r.value == l.value.value && now - l.value.at <= ttl
      ensures r.None? && InOrder(history, now) ==>
                var l := Latest(history, k);
                || l.None? || Expired(l.value, ttl, now)
                || exists i :: 0 <= i < |history| && Evicts(history, i, k, l.value, ttl)
    {
      if k !in entries {
        if Latest(history, k).Some? && InOrder(history, now) {
          LiveLossIsEviction(history, k, ttl, now);
        }
        return None;
      }
      HeldIsLatest(history, k, ttl);
      if now - entries[k].at > ttl {
        return None;
      }
      r := Some(entries[k].value);
    }

    method Put(k: Key, v: V, now: int)
      requires Valid() && now > 0
      modifies this
      ensures Valid() && Stored(old(entries), entries, k, v, now, ttl)
      ensures exists victim :: history == old(history) + [Op.Put(k, v, now, victim)]
    {
      hide Replay, Legal, Latest;
      ghost var m, victim := entries, None;
      if k !in entries && |entries| >= MAX_ENTRIES {
        PruneExpired(now);
        if |entries| >= MAX_ENTRIES {
          victim := EvictOldest();
        }
      }
      entries := entries[k := Entry(v, now)];
      LegalExtend(history, Op.Put(k, v, now, victim), ttl);
      history := history + [Op.Put(k, v, now, victim)];
      CapacityKept(history, ttl);
    }

    /** Drops every expired entry. */
    method PruneExpired(now: int)
      modifies this`entries
      ensures entries == Live(old(entries), ttl, now)
    {
      var todo := entries.Keys;
      while todo != {}
        invariant todo <= entries.Keys
        invariant forall j <- entries :: j in old(entries) && entries[j] == old(entries)[j]
        invariant forall j <- old(entries) :: j in entries || Expired(old(entries)[j], ttl, now)
        invariant forall j <- entries :: j in todo || !Expired(entries[j], ttl, now)
        decreases todo
      {
        var j :| j in todo;
        todo := todo - {j};
        if now - entries[j].at > ttl {
          entries := entries - {j};
        }
      }
    }

    /** Drops one entry with the earliest time. */
    method EvictOldest() returns (ghost victim: Option<Key>)
      requires |entries| >= MAX_ENTRIES && forall j <- entries :: entries[j].at > 0
      modifies this`entries
      ensures victim.Some? && Oldest(old(entries), victim.value) && entries == old(entries) - {victim.value}
    {
      var todo := entries.Keys;
      var oldestKey := Key("", "");
      var oldestTime := 0;
      while todo != {}
        invariant todo <= entries.Keys && oldestTime >= 0
        invariant oldestTime == 0 <==> todo == entries.Keys
        invariant oldestTime > 0 ==> oldestKey in entries && entries[oldestKey].at == oldestTime
        invariant forall j <- entries.Keys - todo :: oldestTime <= entries[j].at
        decreases todo
      {
        var j :| j in todo;
        todo := todo - {j};
        if oldestTime == 0 || entries[j].at < oldestTime {
          oldestKey, oldestTime := j, entries[j].at;
        }
      }
      assert entries != map[];
      victim := Some(oldestKey);
      if oldestTime != 0 {
        entries := entries - {oldestKey};
      }
    }

    method Remove(k: Key)
      requires Valid()
      modifies this
      ensures Valid() && entries == old(entries) - {k} && history == old(history) + [Delete(k)]
    {
      LegalExtend(history, Op<V>.Delete(k), ttl);
      entries := entries - {k};
      history := history + [Delete(k)];
      CapacityKept(history, ttl);
    }
  }

  /** The cache of recent attestation failures. */
  type NegativeCache = Cache<()>

  /** A recorded failure blocks while it is strictly younger than the TTL. */
  method IsBlocked(c: NegativeCache, k: Key, now: int) returns (blocked: bool)
    requires c.Valid()
    ensures blocked ==>
              var l := Latest(c.history, k);
              l.Some? && now - l.value.at < c.ttl
    ensures blocked <==> k in c.entries && now - c.entries[k].at < c.ttl
  {
    if k in c.entries {
      HeldIsLatest(c.history, k, c.ttl);
    }
    blocked := k in c.entries && now - c.entries[k].at < c.ttl;
  }
}
