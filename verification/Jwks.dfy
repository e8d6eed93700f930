/**
 The single-flight cache of JWKS key sets. Callers run concurrently; each method below is one
 stretch of code that runs under the verifier's lock or inside the single flight for a URL, and
 the events of different callers may interleave in any way.
 */
module Jwks {
  import opened Bytes
  import opened Sets

  const MAX_INSTANCES: nat := 16

  datatype Entry = Entry(keys: int, createdAt: int)

  /** How far the one flight for a URL has got. */
  datatype Phase = Started | Fetching | Done

  /** `stores` records every successful fetch that was put in the cache, with its time. */
  datatype State = State(cache: map<string, Entry>, flights: map<string, Phase>, clock: int, stores: seq<(string, int)>)

  datatype Config = Config(ttl: int, cooldown: int)

  datatype Event =
    | Join(url: string)                         // a caller that missed enters the single flight
    | Recheck(url: string, now: int)            // the leader looks again
    | FetchFailed(url: string)
    | Store(url: string, keys: int, now: int)   // the leader's fetch succeeded
    | Finish(url: string)                       // the flight is over
    | ShouldRefetch(url: string, now: int)      // a caller met an unknown key id
    | Shutdown

  ghost predicate IsOldest(cache: map<string, Entry>, url: string) {
    url in cache && forall u <- cache :: cache[url].createdAt <= cache[u].createdAt
  }

  /** The cache after making room for a new URL. */
  ghost predicate RoomMade(cache: map<string, Entry>, url: string, cache': map<string, Entry>) {
    if url in cache || |cache| < MAX_INSTANCES then cache' == cache
    else exists v :: IsOldest(cache, v) && cache' == cache - {v}
  }

  function Fresh(cfg: Config, s: State, url: string, now: int): bool {
    url in s.cache && now - s.cache[url].createdAt < cfg.ttl
  }

  /** What each event does to the shared state. A fetch from the empty URL never succeeds. */
  ghost predicate Step(cfg: Config, s: State, e: Event, s': State) {
    match e
    case Join(url) =>
      s' == if url in s.flights then s else s.(flights := s.flights[url := Started])
    case Recheck(url, now) =>
      && s.clock <= now && url in s.flights && s.flights[url] == Started
      && s' == s.(clock := now, flights := if Fresh(cfg, s, url, now) then s.flights[url := Done] else s.flights[url := Fetching])
    case FetchFailed(url) =>
      && url in s.flights && s.flights[url] == Fetching
      && s' == s.(flights := s.flights[url := Done])
    case Store(url, keys, now) =>
      && url != "" && s.clock <= now && url in s.flights && s.flights[url] == Fetching
      && exists room :: RoomMade(s.cache, url, room) &&
           s' == State(room[url := Entry(keys, now)], s.flights[url := Done], now, s.stores + [(url, now)])
    case Finish(url) =>
      && url in s.flights && s.flights[url] == Done
      && s' == s.(flights := s.flights - {url})
    case ShouldRefetch(url, now) =>
      && s.clock <= now
      && s' == s.(clock := now, cache := if url in s.cache && now - s.cache[url].createdAt >= cfg.cooldown then s.cache - {url} else s.cache)
    case Shutdown =>
      s' == s.(cache := map[])
  }

  // ---------------------------------------------------------------- invariants

  function LastStore(stores: seq<(string, int)>, url: string): Option<int> {
    if stores == [] then None
    else
      var last := stores[|stores| - 1];
      if last.0 == url then Some(last.1) else LastStore(stores[..|stores| - 1], url)
  }

  /** Any two stores for one URL are at least the cooldown apart. */
  ghost predicate Spaced(stores: seq<(string, int)>, cooldown: int) {
    forall i, j :: 0 <= i < j < |stores| && stores[i].0 == stores[j].0 ==> stores[j].1 - stores[i].1 >= cooldown
  }

  /** The last store for `url`, if any, is at least the cooldown in the past. */
  predicate Cooled(cfg: Config, s: State, url: string) {
    var t := LastStore(s.stores, url);
    t.Some? ==> t.value + cfg.cooldown <= s.clock
  }

  ghost predicate Inv(cfg: Config, s: State, urls: set<string>) {
    && s.cache.Keys <= urls && s.flights.Keys <= urls
    && Spaced(s.stores, cfg.cooldown)
    && (forall i :: 0 <= i < |s.stores| ==> s.stores[i].1 <= s.clock)
    && (forall u <- s.cache :: LastStore(s.stores, u) == Some(s.cache[u].createdAt))
    && (forall u :: u in urls && u !in s.cache ==> Cooled(cfg, s, u))
    && (forall u <- s.flights :: s.flights[u] == Fetching ==> Cooled(cfg, s, u))
  }

  lemma {:induction false} LastStoreIs(stores: seq<(string, int)>, url: string, i: nat)
    requires i < |stores| && stores[i].0 == url
    ensures LastStore(stores, url).Some?
    ensures exists j :: i <= j < |stores| && stores[j] == (url, LastStore(stores, url).value)
  {
    var n := |stores| - 1;
    if stores[n].0 != url {
      LastStoreIs(stores[..n], url, i);
      var j :| i <= j < n && stores[..n][j] == (url, LastStore(stores[..n], url).value);
      assert stores[j] == (url, LastStore(stores, url).value);
    } else {
      assert stores[n] == (url, stores[n].1);
    }
  }

  /** A new store that respects the cooldown since the last one respects it since all. */
  lemma SpacedExtend(cfg: Config, s: State, url: string, now: int)
    requires cfg.cooldown >= 0 && Spaced(s.stores, cfg.cooldown) && Cooled(cfg, s, url) && s.clock <= now
    ensures Spaced(s.stores + [(url, now)], cfg.cooldown)
  {
    forall i | 0 <= i < |s.stores| && s.stores[i].0 == url
      ensures now - s.stores[i].1 >= cfg.cooldown
    {
      LastStoreIs(s.stores, url, i);
      var j :| i <= j < |s.stores| && s.stores[j] == (url, LastStore(s.stores, url).value);
    }
  }

  lemma LastStoreExtend(stores: seq<(string, int)>, url: string, now: int, u: string)
    ensures LastStore(stores + [(url, now)], u) == if u == url then Some(now) else LastStore(stores, u)
  {
    assert (stores + [(url, now)])[..|stores|] == stores;
  }

  predicate Covers(urls: set<string>, e: Event) {
    match e
    case Shutdown => false
    case _ => e.url in urls
  }

  /** Every step other than Shutdown keeps the invariant, as long as at most 16 URLs are in use. */
  lemma StepKeepsInv(cfg: Config, s: State, e: Event, s': State, urls: set<string>)
    requires 0 <= cfg.cooldown <= cfg.ttl && |urls| <= MAX_INSTANCES
    requires Inv(cfg, s, urls) && Covers(urls, e) && Step(cfg, s, e, s')
    ensures Inv(cfg, s', urls)
  {
    if e.Store? {
      StoreKeepsInv(cfg, s, e.url, e.keys, e.now, s', urls);
    }
  }

  lemma StoreKeepsInv(cfg: Config, s: State, url: string, keys: int, now: int, s': State, urls: set<string>)
    requires 0 <= cfg.cooldown <= cfg.ttl && |urls| <= MAX_INSTANCES && url in urls
    requires Inv(cfg, s, urls) && Step(cfg, s, Store(url, keys, now), s')
    ensures Inv(cfg, s', urls)
  {
    if url !in s.cache {
      ProperSubsetSize(s.cache.Keys, urls, url);
    }
    assert s'.cache == s.cache[url := Entry(keys, now)];
    SpacedExtend(cfg, s, url, now);
    forall u
      ensures LastStore(s'.stores, u) == if u == url then Some(now) else LastStore(s.stores, u)
    {
      LastStoreExtend(s.stores, url, now, u);
    }
    hide LastStore;
  }

  lemma ProperSubsetSize(a: set<string>, b: set<string>, x: string)
    requires a <= b && x in b && x !in a
    ensures |a| < |b|
  {
    SubsetSize(a, b - {x});
  }

  /** The cache never outgrows its cap, whatever the callers do, Shutdown and any URLs included. */
  lemma StepKeepsCapacity(cfg: Config, s: State, e: Event, s': State)
    requires |s.cache| <= MAX_INSTANCES && Step(cfg, s, e, s')
    ensures |s'.cache| <= MAX_INSTANCES
  {
    match e {
      case Store(url, keys, now) =>
        var room :| RoomMade(s.cache, url, room) && s'.cache == room[url := Entry(keys, now)];
        StoreFits(s.cache, url, room, Entry(keys, now));
      case ShouldRefetch(url, now) =>
        DropFits(s.cache, url);
      case _ =>
    }
  }

  lemma StoreFits(cache: map<string, Entry>, url: string, room: map<string, Entry>, e: Entry)
    requires |cache| <= MAX_INSTANCES && RoomMade(cache, url, room)
    ensures |room[url := e]| <= MAX_INSTANCES
  {
    assert room[url := e].Keys == room.Keys + {url};
    if url in cache {
      assert room.Keys + {url} == room.Keys;
    } else if |cache| == MAX_INSTANCES {
      var v :| IsOldest(cache, v) && room == cache - {v};
      assert room.Keys == cache.Keys - {v};
    }
  }

  lemma DropFits(cache: map<string, Entry>, url: string)
    ensures |cache - {url}| <= |cache|
  {
    assert (cache - {url}).Keys == cache.Keys - {url};
    SubsetSize(cache.Keys - {url}, cache.Keys);
  }

  const EMPTY: State := State(map[], map[], 0, [])

  ghost predicate IsRun(cfg: Config, states: seq<State>, events: seq<Event>) {
    && |states| == |events| + 1 && states[0] == EMPTY
    && forall i :: 0 <= i < |events| ==> Step(cfg, states[i], events[i], states[i + 1])
  }

  /**
   Over every interleaving of callers on at most 16 URLs without a Shutdown, two stored fetches
   of one URL are at least the cooldown apart.
   */
  lemma {:induction false} RefetchBound(cfg: Config, states: seq<State>, events: seq<Event>, urls: set<string>)
    requires 0 <= cfg.cooldown <= cfg.ttl && |urls| <= MAX_INSTANCES
    requires IsRun(cfg, states, events) && forall e <- events :: Covers(urls, e)
    ensures Inv(cfg, states[|events|], urls)
    ensures Spaced(states[|events|].stores, cfg.cooldown)
    decreases |events|
  {
    if events != [] {
      var n := |events| - 1;
      RefetchBound(cfg, states[..n + 1], events[..n], urls);
      assert events[n] in events;
      StepKeepsInv(cfg, states[n], events[n], states[n + 1], urls);
    }
  }

  // ---------------------------------------------------------------- two stores of one URL

  /** The event drops `u`, though it may still be fresh: a Shutdown, or a store that evicts it. */
  ghost predicate Loses(s: State, e: Event, s': State, u: string) {
    u in s.cache && u !in s'.cache && (e.Shutdown? || e.Store?)
  }

  /** `u` was last stored at `t` and not lost since. */
  ghost predicate Held(cfg: Config, s: State, u: string, t: int) {
    && t <= s.clock
    && (u in s.cache ==> s.cache[u].createdAt == t)
    && (u !in s.cache || (u in s.flights && s.flights[u] == Fetching) ==> t + cfg.cooldown <= s.clock)
  }

  lemma HeldStep(cfg: Config, s: State, e: Event, s': State, u: string, t: int)
    requires 0 <= cfg.cooldown <= cfg.ttl && Step(cfg, s, e, s') && Held(cfg, s, u, t)
    requires !Loses(s, e, s', u) && !(e.Store? && e.url == u)
    ensures Held(cfg, s', u, t)
  {
  }

  /** After a store of `u`, as long as it is not lost, its latest store is never more recent than its cache entry says. */
  lemma {:induction false} HeldUntil(cfg: Config, states: seq<State>, events: seq<Event>, i: nat, m: nat) returns (t: int)
    requires 0 <= cfg.cooldown <= cfg.ttl && IsRun(cfg, states, events) && i < m <= |events| && events[i].Store?
    requires forall k :: i < k < m ==> !Loses(states[k], events[k], states[k + 1], events[i].url)
    ensures events[i].now <= t && Held(cfg, states[m], events[i].url, t)
    decreases m
  {
    hide Loses;
    var u, e := events[i].url, events[m - 1];
    assert Step(cfg, states[m - 1], e, states[m]);
    if m == i + 1 {
      t := e.now;
    } else {
      t := HeldUntil(cfg, states, events, i, m - 1);
      if e.Store? && e.url == u {
        t := e.now;
      } else {
        hide Step, Held;
        HeldStep(cfg, states[m - 1], e, states[m], u, t);
      }
    }
  }

  lemma KeptStoresSpaced(cfg: Config, states: seq<State>, events: seq<Event>, i: nat, j: nat)
    requires 0 <= cfg.cooldown <= cfg.ttl && IsRun(cfg, states, events) && i < j < |events|
    requires events[i].Store? && events[j].Store? && events[i].url == events[j].url
    requires forall k :: i < k < j ==> !Loses(states[k], events[k], states[k + 1], events[i].url)
    ensures events[j].now - events[i].now >= cfg.cooldown
  {
    var t := HeldUntil(cfg, states, events, i, j);
    assert Step(cfg, states[j], events[j], states[j + 1]);
  }

  /**
   Over every interleaving, with any number of URLs: two stores of one URL that are closer than the
   cooldown have between them a Shutdown, or another store, that dropped this URL.
   */
  lemma CloseStoresLost(cfg: Config, states: seq<State>, events: seq<Event>, i: nat, j: nat)
    requires 0 <= cfg.cooldown <= cfg.ttl && IsRun(cfg, states, events) && i < j < |events|
    requires events[i].Store? && events[j].Store? && events[i].url == events[j].url
    requires events[j].now - events[i].now < cfg.cooldown
    ensures exists k :: i < k < j && Loses(states[k], events[k], states[k + 1], events[i].url)
  {
    if forall k :: i < k < j ==> !Loses(states[k], events[k], states[k + 1], events[i].url) {
      KeptStoresSpaced(cfg, states, events, i, j);
    }
  }

  lemma {:induction false} EmptyNeverCached(cfg: Config, states: seq<State>, events: seq<Event>)
    requires IsRun(cfg, states, events)
    ensures "" !in states[|events|].cache
    decreases |events|
  {
    if events != [] {
      var n := |events| - 1;
      EmptyNeverCached(cfg, states[..n + 1], events[..n]);
      assert Step(cfg, states[n], events[n], states[n + 1]);
    }
  }

  lemma {:induction false} CapacityBound(cfg: Config, states: seq<State>, events: seq<Event>)
    requires IsRun(cfg, states, events)
    ensures |states[|events|].cache| <= MAX_INSTANCES
    decreases |events|
  {
    if events != [] {
      var n := |events| - 1;
      CapacityBound(cfg, states[..n + 1], events[..n]);
      StepKeepsCapacity(cfg, states[n], events[n], states[n + 1]);
    }
  }

  // ---------------------------------------------------------------- when stores are spaced

  /** The events use these URLs only, and Shutdown only if it is allowed. */
  ghost predicate Drawn(urls: set<string>, shutdowns: bool, events: seq<Event>) {
    forall e <- events :: if e.Shutdown? then shutdowns else e.url in urls
  }

  /** Over every interleaving of such events, stores of one URL are spaced. */
  ghost predicate AlwaysSpaced(cfg: Config, urls: set<string>, shutdowns: bool) {
    forall states: seq<State>, events: seq<Event> :: IsRun(cfg, states, events) && Drawn(urls, shutdowns, events) ==> Spaced(states[|events|].stores, cfg.cooldown)
  }

  /** Stores are always spaced if and only if at most 16 URLs are in use and there is no Shutdown. */
  lemma SpacedIff(cfg: Config, urls: set<string>, shutdowns: bool)
    requires 0 < cfg.cooldown <= cfg.ttl && "" !in urls
    ensures AlwaysSpaced(cfg, urls, shutdowns) <==> |urls| <= MAX_INSTANCES && (shutdowns ==> urls == {})
  {
    hide Spaced, Step;
    if |urls| > MAX_INSTANCES {
      var us := Enumerate(urls, MAX_INSTANCES + 1);
      var states, events := EvictionBreaksSpacing(cfg, us);
      DrawnMore(set u <- us, false, urls, shutdowns, events);
    } else if shutdowns && urls != {} {
      var u :| u in urls;
      var states, events := ShutdownBreaksSpacing(cfg, u);
      DrawnMore({u}, true, urls, true, events);
    } else {
      forall states: seq<State>, events: seq<Event> | IsRun(cfg, states, events) && Drawn(urls, shutdowns, events)
        ensures Spaced(states[|events|].stores, cfg.cooldown)
      {
        if urls == {} {
          NothingStored(cfg, states, events, shutdowns);
        } else {
          RefetchBound(cfg, states, events, urls);
        }
      }
    }
  }

  lemma {:induction false} NothingStored(cfg: Config, states: seq<State>, events: seq<Event>, shutdowns: bool)
    requires IsRun(cfg, states, events) && Drawn({}, shutdowns, events)
    ensures Spaced(states[|events|].stores, cfg.cooldown) && states[|events|].stores == []
    decreases |events|
  {
    if events != [] {
      var n := |events| - 1;
      assert events[n] in events && Step(cfg, states[n], events[n], states[n + 1]);
      NothingStored(cfg, states[..n + 1], events[..n], shutdowns);
    }
  }

  lemma DrawnMore(a: set<string>, s: bool, b: set<string>, t: bool, events: seq<Event>)
    requires Drawn(a, s, events) && a <= b && (s ==> t)
    ensures Drawn(b, t, events)
  {
  }

  /** Some members of a set that has enough of them. */
  lemma {:induction false} Enumerate(urls: set<string>, n: nat) returns (us: seq<string>)
    requires n <= |urls|
    ensures |us| == n && (forall u <- us :: u in urls) && forall i, j :: 0 <= i < j < n ==> us[i] != us[j]
    decreases n
  {
    us := [];
    if n > 0 {
      var u :| u in urls;
      var rest := Enumerate(urls - {u}, n - 1);
      us := rest + [u];
    }
  }

  /** A Shutdown between two flights does allow two stores inside the cooldown. */
  lemma ShutdownBreaksSpacing(cfg: Config, u: string) returns (states: seq<State>, events: seq<Event>)
    requires 0 < cfg.cooldown <= cfg.ttl && u != ""
    ensures IsRun(cfg, states, events) && Drawn({u}, true, events) && !Spaced(states[|events|].stores, cfg.cooldown)
  {
    states, events := OneFlight(cfg, [EMPTY], [], u, 1, map[], {u}, true);
    var idle := states[|events|].(cache := map[]);
    ExtendRun(cfg, states, events, Shutdown, idle, {u}, true);
    states, events := OneFlight(cfg, states + [idle], events + [Shutdown], u, 1, map[], {u}, true);
    var stores := states[|events|].stores;
    assert stores == [] + [(u, 1)] + [(u, 1)];
    assert stores[0].0 == stores[1].0;
  }

  function StoredAtOne(us: seq<string>): seq<(string, int)> {
    seq(|us|, i requires 0 <= i < |us| => (us[i], 1))
  }

  ghost predicate Filled(s: State, us: seq<string>) {
    && s.flights == map[] && s.clock <= 1 && s.stores == StoredAtOne(us)
    && s.cache.Keys == (set u <- us) && |s.cache| == |us| && forall u <- s.cache :: s.cache[u].createdAt == 1
  }

  /** One flight for each of these URLs, all at one time. */
  lemma {:induction false} Fill(cfg: Config, us: seq<string>, urls: set<string>) returns (states: seq<State>, events: seq<Event>)
    requires |us| <= MAX_INSTANCES && (forall u <- us :: u in urls && u != "") && forall i, j :: 0 <= i < j < |us| ==> us[i] != us[j]
    ensures IsRun(cfg, states, events) && Drawn(urls, false, events) && Filled(states[|events|], us)
    decreases |us|
  {
    hide RoomMade, Step;
    if us == [] {
      states, events := [EMPTY], [];
    } else {
      hide Filled, Drawn;
      var init, u := us[..|us| - 1], us[|us| - 1];
      assert u in us && forall v <- init :: v in us;
      states, events := Fill(cfg, init, urls);
      var s := states[|events|];
      OneMore(s, init, u);
      assert us == init + [u];
      states, events := OneFlight(cfg, states, events, u, 1, s.cache, urls, false);
    }
  }

  lemma OneMore(s: State, init: seq<string>, u: string)
    requires Filled(s, init) && u !in init && |init| < MAX_INSTANCES
    ensures u !in s.cache && s.flights == map[] && s.clock <= 1 && RoomMade(s.cache, u, s.cache)
    ensures Filled(State(s.cache[u := Entry(1, 1)], map[], 1, s.stores + [(u, 1)]), init + [u])
  {
    var cache := s.cache[u := Entry(1, 1)];
    assert cache.Keys == s.cache.Keys + {u};
    assert (set v <- init + [u]) == (set v <- init) + {u};
    assert StoredAtOne(init + [u]) == StoredAtOne(init) + [(u, 1)];
  }

  /** Seventeen URLs: the last one to be stored evicts the first, which is then stored again at once. */
  lemma EvictionBreaksSpacing(cfg: Config, us: seq<string>) returns (states: seq<State>, events: seq<Event>)
    requires 0 < cfg.cooldown <= cfg.ttl && |us| == MAX_INSTANCES + 1 && "" !in us && forall i, j :: 0 <= i < j < |us| ==> us[i] != us[j]
    ensures IsRun(cfg, states, events) && Drawn(set u <- us, false, events) && !Spaced(states[|events|].stores, cfg.cooldown)
  {
    var urls := set u <- us;
    var first, last := us[..MAX_INSTANCES], us[MAX_INSTANCES];
    assert forall u <- first :: u in us;
    states, events := Fill(cfg, first, urls);
    var s := states[|events|];
    assert last !in first;
    var room, room' := Evictions(s, first, last);
    hide Filled, Step, RoomMade, IsRun, Drawn;
    states, events := OneFlight(cfg, states, events, last, 1, room, urls, false);
    states, events := OneFlight(cfg, states, events, us[0], 1, room', urls, false);
    CloseStores(cfg, first, last);
  }

  /** Two oldest entries to evict, one for `last` and then one for the URL evicted first. */
  lemma Evictions(s: State, first: seq<string>, last: string) returns (room: map<string, Entry>, room': map<string, Entry>)
    requires Filled(s, first) && |first| == MAX_INSTANCES && last !in first && first[0] != first[1]
    ensures last !in s.cache && s.flights == map[] && s.clock <= 1 && s.stores == StoredAtOne(first)
    ensures RoomMade(s.cache, last, room) && first[0] !in room[last := Entry(1, 1)]
    ensures RoomMade(room[last := Entry(1, 1)], first[0], room')
  {
    assert first[0] in s.cache && first[1] in s.cache && last !in s.cache;
    EvictAny(s.cache, first[0]);
    room := s.cache - {first[0]};
    var next := room[last := Entry(1, 1)];
    assert next.Keys == room.Keys + {last} && first[1] in next;
    EvictAny(next, first[1]);
    room' := next - {first[1]};
  }

  lemma CloseStores(cfg: Config, first: seq<string>, last: string)
    requires 0 < cfg.cooldown && |first| == MAX_INSTANCES
    ensures !Spaced(StoredAtOne(first) + [(last, 1)] + [(first[0], 1)], cfg.cooldown)
  {
    var stores := StoredAtOne(first) + [(last, 1)] + [(first[0], 1)];
    assert stores[0].0 == stores[MAX_INSTANCES + 1].0;
  }

  lemma EvictAny(cache: map<string, Entry>, u: string)
    requires u in cache && forall v <- cache :: cache[v].createdAt == 1
    ensures IsOldest(cache, u) && |cache - {u}| == |cache| - 1
  {
    assert (cache - {u}).Keys == cache.Keys - {u};
  }

  lemma ExtendRun(cfg: Config, states: seq<State>, events: seq<Event>, e: Event, s: State, urls: set<string>, shutdowns: bool)
    requires IsRun(cfg, states, events) && Step(cfg, states[|events|], e, s)
    requires Drawn(urls, shutdowns, events) && if e.Shutdown? then shutdowns else e.url in urls
    ensures IsRun(cfg, states + [s], events + [e]) && Drawn(urls, shutdowns, events + [e])
  {
    hide Step;
  }

  /** One complete flight for a URL that is not cached, at time one; `room` is the cache once room was made. */
  lemma OneFlight(cfg: Config, states: seq<State>, events: seq<Event>, u: string, keys: int, room: map<string, Entry>,
                  urls: set<string>, shutdowns: bool) returns (states': seq<State>, events': seq<Event>)
    requires IsRun(cfg, states, events) && Drawn(urls, shutdowns, events) && u != "" && u in urls
    requires var s := states[|events|]; u !in s.cache && s.flights == map[] && s.clock <= 1 && RoomMade(s.cache, u, room)
    ensures IsRun(cfg, states', events') && Drawn(urls, shutdowns, events')
    ensures states'[|events'|] == State(room[u := Entry(keys, 1)], map[], 1, states[|events|].stores + [(u, 1)])
  {
    var s := states[|events|];
    var a := s.(flights := map[u := Started]);
    var b := a.(clock := 1, flights := map[u := Fetching]);
    var c := State(room[u := Entry(keys, 1)], map[u := Done], 1, s.stores + [(u, 1)]);
    var d := c.(flights := map[]);
    FlightStarts(cfg, s, u, a, b);
    FlightEnds(cfg, s, u, keys, room, b, c, d);
    hide Step, Drawn, RoomMade;
    ExtendRun(cfg, states, events, Join(u), a, urls, shutdowns);
    ExtendRun(cfg, states + [a], events + [Join(u)], Recheck(u, 1), b, urls, shutdowns);
    states', events' := states + [a] + [b], events + [Join(u)] + [Recheck(u, 1)];
    ExtendRun(cfg, states', events', Store(u, keys, 1), c, urls, shutdowns);
    ExtendRun(cfg, states' + [c], events' + [Store(u, keys, 1)], Finish(u), d, urls, shutdowns);
    states', events' := states' + [c] + [d], events' + [Store(u, keys, 1)] + [Finish(u)];
  }

  lemma FlightStarts(cfg: Config, s: State, u: string, a: State, b: State)
    requires u !in s.cache && s.flights == map[] && s.clock <= 1
    requires a == s.(flights := map[u := Started]) && b == a.(clock := 1, flights := map[u := Fetching])
    ensures Step(cfg, s, Join(u), a) && Step(cfg, a, Recheck(u, 1), b)
  {
  }

  lemma FlightEnds(cfg: Config, s: State, u: string, keys: int, room: map<string, Entry>, b: State, c: State, d: State)
    requires u != "" && RoomMade(s.cache, u, room) && b == State(s.cache, map[u := Fetching], 1, s.stores)
    requires c == State(room[u := Entry(keys, 1)], map[u := Done], 1, s.stores + [(u, 1)]) && d == c.(flights := map[])
    ensures Step(cfg, b, Store(u, keys, 1), c) && Step(cfg, c, Finish(u), d)
  {
    hide RoomMade;
    assert map[u := Done] - {u} == map[];
    assert map[u := Fetching][u := Done] == map[u := Done];
  }

  // ---------------------------------------------------------------- the verifier

  class NvidiaVerifier {
    const cfg: Config
    var cache: map<string, Entry>

    ghost var flights: map<string, Phase>
    ghost var clock: int
    ghost var stores: seq<(string, int)>

    ghost function Shared(): State
      reads this
    {
      State(cache, flights, clock, stores)
    }

    constructor (cfg: Config)
      ensures this.cfg == cfg && Shared() == EMPTY
    {
      this.cfg, cache, flights, clock, stores := cfg, map[], map[], 0, [];
    }

    /** The lookup every caller starts with; it changes nothing. */
    method Lookup(url: string, now: int) returns (hit: Option<int>)
      ensures hit.Some? <==> Fresh(cfg, Shared(), url, now)
      ensures hit.Some? ==> hit.value == cache[url].keys
    {
      if url in cache && now - cache[url].createdAt < cfg.ttl {
        return Some(cache[url].keys);
      }
      hit := None;
    }

    ghost method JoinFlight(url: string)
      modifies this`flights
      ensures Step(cfg, old(Shared()), Join(url), Shared())
    {
      if url !in flights {
        flights := flights[url := Started];
      }
    }

    /** The leader's second look. */
    method LeaderRecheck(url: string, now: int) returns (hit: Option<int>)
      requires url in flights && flights[url] == Started && clock <= now
      modifies this`flights, this`clock
      ensures Step(cfg, old(Shared()), Recheck(url, now), Shared())
      ensures hit.Some? <==> flights[url] == Done
    {
      hit := Lookup(url, now);
      clock, flights := now, flights[url := if hit.Some? then Done else Fetching];
    }

    method StoreFetched(url: string, keys: int, now: int)
      requires url in flights && flights[url] == Fetching && clock <= now && url != "" && "" !in cache
      modifies this
      ensures Step(cfg, old(Shared()), Store(url, keys, now), Shared())
    {
      if url !in cache {
        EvictOldestLocked();
      }
      ghost var room := cache;
      assert RoomMade(old(cache), url, room);
      cache := cache[url := Entry(keys, now)];
      flights, clock, stores := flights[url := Done], now, stores + [(url, now)];
    }

    /** Removes an oldest entry when the cap has been reached. */
    method EvictOldestLocked()
      requires "" !in cache
      modifies this`cache
      ensures |old(cache)| < MAX_INSTANCES ==> cache == old(cache)
      ensures |old(cache)| >= MAX_INSTANCES ==> exists v :: IsOldest(old(cache), v) && cache == old(cache) - {v}
    {
      if |cache| < MAX_INSTANCES {
        return;
      }
      var oldestUrl, oldestTime := "", 0;
      var todo := cache.Keys;
      while todo != {}
        invariant todo <= cache.Keys && (oldestUrl == "" <==> todo == cache.Keys)
        invariant oldestUrl != "" ==> oldestUrl in cache && cache[oldestUrl].createdAt == oldestTime
        invariant oldestUrl != "" ==> forall u <- cache.Keys - todo :: oldestTime <= cache[u].createdAt
        decreases todo
      {
        var u :| u in todo;
        todo := todo - {u};
        if oldestUrl == "" || cache[u].createdAt < oldestTime {
          oldestUrl, oldestTime := u, cache[u].createdAt;
        }
      }
      assert cache != map[];
      assert IsOldest(cache, oldestUrl);
      cache := cache - {oldestUrl};
    }

    /** Whether to fetch again for an unknown key id; if so the stale entry is dropped. */
    method ShouldRefetchJwks(url: string, now: int) returns (refetch: bool)
      requires clock <= now
      modifies this`cache, this`clock
      ensures Step(cfg, old(Shared()), ShouldRefetch(url, now), Shared())
      ensures refetch <==> url !in cache
    {
      clock := now;
      if url !in cache {
        return true;
      }
      if now - cache[url].createdAt < cfg.cooldown {
        return false;
      }
      cache := cache - {url};
      refetch := true;
    }

    method ClearAll()
      modifies this`cache
      ensures Step(cfg, old(Shared()), Shutdown, Shared())
    {
      cache := map[];
    }
  }
}
