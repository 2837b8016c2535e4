/** The simple form of the keep-alive pool in src/pool.js: a map from key to the idle connections
    of that key, oldest first, with no cached count.  The lemmas about whole runs are here. */
module Shelves {

  datatype Stats = Stats(hits: nat, misses: nat, released: nat, discarded: nat, evicted: nat)

  /** `shut` counts how often each connection's close() was called. */
  datatype Shelf<!C> = Shelf(
    lists: map<string, seq<C>>,
    maxPerKey: nat,
    maxTotal: nat,
    closed: bool,
    stats: Stats,
    shut: multiset<C>)

  datatype Taken<+C> = Hit(conn: C) | Miss | PoolClosed

  function Listed<C>(lists: map<string, seq<C>>, key: string): seq<C> {
    if key in lists then lists[key] else []
  }

  /** A key whose last connection goes leaves the map. */
  function Put<C>(lists: map<string, seq<C>>, key: string, list: seq<C>): map<string, seq<C>> {
    if list == [] then lists - {key} else lists[key := list]
  }

  /** Every idle connection, whatever its key. */
  ghost function Contents<C>(lists: map<string, seq<C>>): multiset<C>
    decreases |lists|
  {
    if lists == map[] then multiset{}
    else
      var key :| key in lists;
      multiset(lists[key]) + Contents(lists - {key})
  }

  ghost function Count<C>(lists: map<string, seq<C>>): nat {
    |Contents(lists)|
  }

  // ---------------------------------------------------------------- the specification

  function Take<C>(s: Shelf<C>, key: string): (Shelf<C>, Taken<C>) {
    if s.closed then
      (s, PoolClosed)
    else if Listed(s.lists, key) == [] then
      (s.(stats := s.stats.(misses := s.stats.misses + 1)), Miss)
    else
      var list := s.lists[key];
      (s.(lists := Put(s.lists, key, list[..|list| - 1]), stats := s.stats.(hits := s.stats.hits + 1)),
       Hit(list[|list| - 1]))
  }

  function Discard<C>(s: Shelf<C>, conn: C): Shelf<C> {
    s.(stats := s.stats.(discarded := s.stats.discarded + 1), shut := s.shut + multiset{conn})
  }

  ghost predicate Full<C>(s: Shelf<C>, key: string) {
    |Listed(s.lists, key)| >= s.maxPerKey || Count(s.lists) >= s.maxTotal
  }

  /** What a release does to the shelf, and whether the connection was kept. */
  ghost function Release<C>(s: Shelf<C>, key: string, conn: C, eligible: bool): (Shelf<C>, bool) {
    var list := Listed(s.lists, key);
    if s.closed || !eligible || (Full(s, key) && list == []) then
      (Discard(s, conn), false)
    else if Full(s, key) then
      (s.(lists := s.lists[key := list[1..] + [conn]],
          stats := s.stats.(evicted := s.stats.evicted + 1, released := s.stats.released + 1),
          shut := s.shut + multiset{list[0]}), true)
    else
      (s.(lists := s.lists[key := list + [conn]],
          stats := s.stats.(released := s.stats.released + 1)), true)
  }

  ghost function CloseAll<C>(s: Shelf<C>): Shelf<C> {
    s.(lists := map[], closed := true, shut := s.shut + Contents(s.lists))
  }

  function Empty<C>(maxPerKey: nat, maxTotal: nat): Shelf<C> {
    Shelf(map[], maxPerKey, maxTotal, false, Stats(0, 0, 0, 0, 0), multiset{})
  }

  ghost predicate Fits<C>(s: Shelf<C>) {
    && (forall key <- s.lists :: 0 < |s.lists[key]| <= s.maxPerKey)
    && Count(s.lists) <= s.maxTotal
  }

  // ---------------------------------------------------------------- counting

  /** The choice inside `Contents` does not matter. */
  lemma {:induction false} ContentsSplit<C>(lists: map<string, seq<C>>, key: string)
    requires key in lists
    ensures Contents(lists) == multiset(lists[key]) + Contents(lists - {key})
    decreases |lists|
  {
    var k :| k in lists && Contents(lists) == multiset(lists[k]) + Contents(lists - {k});
    if k != key {
      ContentsSplit(lists - {k}, key);
      ContentsSplit(lists - {key}, k);
      assert lists - {k} - {key} == lists - {key} - {k};
    }
  }

  lemma ContentsPut<C>(lists: map<string, seq<C>>, key: string, list: seq<C>)
    ensures Contents(lists) == multiset(Listed(lists, key)) + Contents(lists - {key})
    ensures Contents(Put(lists, key, list)) == multiset(list) + Contents(lists - {key})
    ensures Contents(lists[key := list]) == multiset(list) + Contents(lists - {key})
    ensures Contents<C>(map[]) == multiset{}
  {
    if key in lists {
      ContentsSplit(lists, key);
    } else {
      assert lists - {key} == lists;
    }
    ContentsSplit(lists[key := list], key);
    assert lists[key := list] - {key} == lists - {key};
  }

  // ---------------------------------------------------------------- one call

  /** Taking gives back the newest, and only that list changes. */
  lemma TakeNewest<C>(s: Shelf<C>, key: string)
    requires Fits(s) && !s.closed && key in s.lists
    ensures Take(s, key).1.Hit?
    ensures Listed(Take(s, key).0.lists, key) + [Take(s, key).1.conn] == s.lists[key]
    ensures forall k :: k != key ==> Listed(Take(s, key).0.lists, k) == Listed(s.lists, k)
  {
    hide Contents;
  }

  /** What a release leaves for a later take: an eligible connection that is kept is the next one
      handed out, and taking it restores the list less the victim, the oldest of that key. */
  lemma ReleaseThenTake<C>(s: Shelf<C>, key: string, conn: C)
    requires Fits(s) && !s.closed
    ensures
      var (s', kept) := Release(s, key, conn, true);
      && (kept <==> !(Full(s, key) && key !in s.lists))
      && (kept ==> Take(s', key).1 == Hit(conn))
      && (kept ==> Listed(Take(s', key).0.lists, key) == Listed(s.lists, key)[if Full(s, key) then 1 else 0..])
  {
    hide Contents;
    hide Count;
    var (s', kept) := Release(s, key, conn, true);
    if kept {
      var list := Listed(s.lists, key);
      var rest := list[if Full(s, key) then 1 else 0..];
      assert s'.lists[key] == rest + [conn];
      assert s'.lists[key][..|rest|] == rest;
    }
  }

  /** A release closes the victim of a full list, or the connection it refuses, and touches no other
      list. */
  lemma ReleaseCloses<C>(s: Shelf<C>, key: string, conn: C, eligible: bool)
    requires Fits(s)
    ensures
      var (s', kept) := Release(s, key, conn, eligible);
      && (!kept ==> s'.lists == s.lists && s'.shut == s.shut + multiset{conn})
      && (kept && Full(s, key) ==> s'.shut == s.shut + multiset{s.lists[key][0]})
      && (kept && !Full(s, key) ==> s'.shut == s.shut)
      && s'.lists - {key} == s.lists - {key}
  {
    hide Contents;
    hide Count;
  }

  /** A connection has become the newest idle one of its key exactly when that is allowed, the pool is open,
      and there is room or an older one of the key, which is closed then; otherwise it is closed itself. */
  ghost predicate Stored<C>(s: Shelf<C>, s': Shelf<C>, key: string, conn: C, allowed: bool) {
    var list := if key in s.lists then s.lists[key] else [];
    var room := |list| < s.maxPerKey && |Contents(s.lists)| < s.maxTotal;
    && s'.lists - {key} == s.lists - {key}
    && if allowed && !s.closed && (room || list != []) then
         && key in s'.lists && s'.lists[key] == list[if room then 0 else 1..] + [conn]
         && s'.shut == s.shut + if room then multiset{} else multiset{list[0]}
       else
         s'.lists == s.lists && s'.shut == s.shut + multiset{conn}
  }

  lemma ReleaseStores<C>(s: Shelf<C>, key: string, conn: C, allowed: bool)
    ensures Stored(s, Release(s, key, conn, allowed).0, key, conn, allowed)
    ensures Release(s, key, conn, allowed).1 <==>
              allowed && !s.closed &&
              ((|Listed(s.lists, key)| < s.maxPerKey && |Contents(s.lists)| < s.maxTotal) || Listed(s.lists, key) != [])
  {
    hide Contents;
  }

  lemma PopLast<C>(list: seq<C>)
    requires list != []
    ensures multiset(list) == multiset(list[..|list| - 1]) + multiset{list[|list| - 1]}
  {
    assert list == list[..|list| - 1] + [list[|list| - 1]];
  }

  lemma PopFirst<C>(list: seq<C>, conn: C)
    requires list != []
    ensures multiset(list) + multiset{conn} == multiset(list[1..] + [conn]) + multiset{list[0]}
  {
    assert list == [list[0]] + list[1..];
  }

  lemma TakeKeeps<C>(s: Shelf<C>, key: string)
    requires Fits(s)
    ensures Fits(Take(s, key).0)
    ensures
      var (s', taken) := Take(s, key);
      && (taken.Hit? ==> Contents(s.lists) == Contents(s'.lists) + multiset{taken.conn})
      && (taken.Hit? ==> Count(s.lists) == Count(s'.lists) + 1)
  {
    hide Contents;
    var (s', taken) := Take(s, key);
    if taken.Hit? {
      TakeLessOne(s.lists, key);
    }
  }

  lemma TakeLessOne<C>(lists: map<string, seq<C>>, key: string)
    requires key in lists && lists[key] != []
    ensures
      var list := lists[key];
      var lists' := Put(lists, key, list[..|list| - 1]);
      && Contents(lists) == Contents(lists') + multiset{list[|list| - 1]}
      && Count(lists) == Count(lists') + 1
  {
    hide Contents;
    var list := lists[key];
    var short := list[..|list| - 1];
    ContentsPut(lists, key, short);
    PopLast(list);
    Regroup(multiset(list), multiset(short), Contents(lists - {key}), list[|list| - 1]);
  }

  lemma Regroup<C>(list: multiset<C>, short: multiset<C>, rest: multiset<C>, conn: C)
    requires list == short + multiset{conn}
    ensures list + rest == short + rest + multiset{conn}
    ensures |list + rest| == |short + rest| + 1
  {
    assert list + rest == (short + rest) + multiset{conn};
  }

  lemma ReleaseKeeps<C>(s: Shelf<C>, key: string, conn: C, eligible: bool)
    requires Fits(s)
    ensures Fits(Release(s, key, conn, eligible).0)
    ensures
      var (s', kept) := Release(s, key, conn, eligible);
      && Contents(s.lists) + s.shut + multiset{conn} == Contents(s'.lists) + s'.shut
      && Count(s'.lists) == Count(s.lists) + if kept && !Full(s, key) then 1 else 0
  {
    hide Contents;
    if !s.closed && eligible && (!Full(s, key) || Listed(s.lists, key) != []) {
      if Full(s, key) {
        ReplaceOldest(s, key, conn);
      } else {
        AddNewest(s, key, conn);
      }
      hide Full, Count;
    }
  }

  lemma ReplaceOldest<C>(s: Shelf<C>, key: string, conn: C)
    requires Fits(s) && Listed(s.lists, key) != []
    ensures
      var list := Listed(s.lists, key);
      var lists' := s.lists[key := list[1..] + [conn]];
      && Contents(s.lists) + s.shut + multiset{conn} == Contents(lists') + (s.shut + multiset{list[0]})
      && Count(lists') == Count(s.lists)
      && Fits(s.(lists := lists'))
  {
    hide Contents;
    var list := Listed(s.lists, key);
    var list' := list[1..] + [conn];
    ContentsPut(s.lists, key, list');
    PopFirst(list, conn);
    Evicts(multiset(list), multiset(list'), Contents(s.lists - {key}), s.shut, list[0], conn);
  }

  lemma AddNewest<C>(s: Shelf<C>, key: string, conn: C)
    requires Fits(s) && !Full(s, key)
    ensures
      var lists' := s.lists[key := Listed(s.lists, key) + [conn]];
      && Contents(lists') == Contents(s.lists) + multiset{conn}
      && Count(lists') == Count(s.lists) + 1
      && Fits(s.(lists := lists'))
  {
    hide Contents;
    var list := Listed(s.lists, key);
    ContentsPut(s.lists, key, list + [conn]);
    assert multiset(list + [conn]) == multiset(list) + multiset{conn};
    assert Contents(s.lists[key := list + [conn]]) == Contents(s.lists) + multiset{conn};
  }

  lemma Evicts<C>(list: multiset<C>, list': multiset<C>, rest: multiset<C>, shut: multiset<C>, victim: C, conn: C)
    requires list + multiset{conn} == list' + multiset{victim}
    ensures list + rest + shut + multiset{conn} == list' + rest + (shut + multiset{victim})
    ensures |list + rest| == |list' + rest|
  {
    assert list + rest + shut + multiset{conn} == (list + multiset{conn}) + (rest + shut);
    assert list' + rest + (shut + multiset{victim}) == (list' + multiset{victim}) + (rest + shut);
    assert |list + multiset{conn}| == |list' + multiset{victim}|;
  }

  // ---------------------------------------------------------------- whole runs

  datatype Call<C> =
    | DoTake(key: string)
    | DoRelease(key: string, conn: C, eligible: bool)
    | DoDiscard(conn: C)
    | DoCloseAll

  ghost function After<C>(s: Shelf<C>, call: Call<C>): Shelf<C> {
    match call
    case DoTake(key) => Take(s, key).0
    case DoRelease(key, conn, eligible) => Release(s, key, conn, eligible).0
    case DoDiscard(conn) => Discard(s, conn)
    case DoCloseAll => CloseAll(s)
  }

  ghost function Replay<C>(s: Shelf<C>, calls: seq<Call<C>>): Shelf<C> {
    if calls == [] then s else After(Replay(s, calls[..|calls| - 1]), calls[|calls| - 1])
  }

  function GivenBy<C>(call: Call<C>): multiset<C> {
    match call
    case DoRelease(_, conn, _) => multiset{conn}
    case DoDiscard(conn) => multiset{conn}
    case _ => multiset{}
  }

  function GotBy<C>(s: Shelf<C>, call: Call<C>): multiset<C> {
    if call.DoTake? && Take(s, call.key).1.Hit? then multiset{Take(s, call.key).1.conn} else multiset{}
  }

  /** The connections handed to the pool by `calls`. */
  function Given<C>(calls: seq<Call<C>>): multiset<C> {
    if calls == [] then multiset{} else Given(calls[..|calls| - 1]) + GivenBy(calls[|calls| - 1])
  }

  /** The connections `calls` got back out. */
  ghost function Got<C>(s: Shelf<C>, calls: seq<Call<C>>): multiset<C> {
    if calls == [] then multiset{}
    else
      var before := calls[..|calls| - 1];
      Got(s, before) + GotBy(Replay(s, before), calls[|calls| - 1])
  }

  /** Over every sequence of calls: the limits hold, no empty list is stored, and no connection is
      lost or invented: each one given in was handed out again, is idle, or was closed. */
  lemma {:induction false} RunConserves<C>(maxPerKey: nat, maxTotal: nat, calls: seq<Call<C>>)
    ensures
      var start: Shelf<C> := Empty(maxPerKey, maxTotal);
      var end := Replay(start, calls);
      && Fits(end)
      && (end.closed ==> end.lists == map[])
      && Given(calls) == Got(start, calls) + Contents(end.lists) + end.shut
  {
    hide Contents;
    ContentsPut<C>(map[], "", []);
    if calls != [] {
      var before := calls[..|calls| - 1];
      RunConserves(maxPerKey, maxTotal, before);
      var start: Shelf<C> := Empty(maxPerKey, maxTotal);
      CallConserves(Replay(start, before), calls[|calls| - 1], Given(before), Got(start, before));
    }
  }

  lemma CallConserves<C>(s: Shelf<C>, call: Call<C>, given: multiset<C>, got: multiset<C>)
    requires Fits(s) && (s.closed ==> s.lists == map[])
    requires given == got + Contents(s.lists) + s.shut
    ensures
      var s' := After(s, call);
      && Fits(s')
      && (s'.closed ==> s'.lists == map[])
      && given + GivenBy(call) == got + GotBy(s, call) + Contents(s'.lists) + s'.shut
  {
    hide Contents;
    ContentsPut<C>(map[], "", []);
    match call
    case DoTake(key) =>
      TakeKeeps(s, key);
    case DoRelease(key, conn, eligible) =>
      ReleaseKeeps(s, key, conn, eligible);
      var s' := Release(s, key, conn, eligible).0;
      GivenOneMore(given, got, Contents(s.lists), s.shut, Contents(s'.lists), s'.shut, conn);
    case DoDiscard(_) =>
    case DoCloseAll =>
  }

  lemma GivenOneMore<C>(given: multiset<C>, got: multiset<C>, idle: multiset<C>, shut: multiset<C>,
                        idle': multiset<C>, shut': multiset<C>, conn: C)
    requires given == got + idle + shut
    requires idle + shut + multiset{conn} == idle' + shut'
    ensures given + multiset{conn} == got + idle' + shut'
  {
    assert given + multiset{conn} == got + (idle + shut + multiset{conn});
  }

  ghost predicate Tallied<C>(s: Shelf<C>) {
    s.stats.released == s.stats.hits + s.stats.evicted + Count(s.lists)
  }

  /** Before the pool is closed, every release is accounted for by a hit, an eviction or an idle
      connection. */
  lemma {:induction false} RunCounts<C>(maxPerKey: nat, maxTotal: nat, calls: seq<Call<C>>)
    ensures
      var end := Replay(Empty(maxPerKey, maxTotal), calls);
      && (end.closed <==> DoCloseAll in calls)
      && (!end.closed ==> Tallied(end))
  {
    hide After, Tallied, Fits, Empty, Count, Contents;
    if calls == [] {
      NothingTallied<C>(maxPerKey, maxTotal);
    } else {
      var before, last := calls[..|calls| - 1], calls[|calls| - 1];
      RunCounts(maxPerKey, maxTotal, before);
      RunConserves(maxPerKey, maxTotal, before);
      CallCounts(Replay(Empty(maxPerKey, maxTotal), before), last);
      LastCall(before, last, DoCloseAll);
      assert calls == before + [last];
    }
  }

  lemma NothingTallied<C>(maxPerKey: nat, maxTotal: nat)
    ensures Tallied(Empty<C>(maxPerKey, maxTotal)) && !Empty<C>(maxPerKey, maxTotal).closed
  {
    hide Contents;
    ContentsPut<C>(map[], "", []);
  }

  lemma LastCall<C>(before: seq<Call<C>>, last: Call<C>, call: Call<C>)
    ensures call in before + [last] <==> call in before || call == last
  {
  }

  lemma CallCounts<C>(s: Shelf<C>, call: Call<C>)
    requires Fits(s) && (!s.closed ==> Tallied(s))
    ensures
      var s' := After(s, call);
      && (s'.closed <==> s.closed || call.DoCloseAll?)
      && (!s'.closed ==> Tallied(s'))
  {
    hide Contents;
    match call
    case DoTake(key) => TakeKeeps(s, key);
    case DoRelease(key, conn, eligible) => ReleaseKeeps(s, key, conn, eligible);
    case _ =>
  }

  /** How many takes were made before the pool was closed. */
  ghost function TakesOpen<C>(s: Shelf<C>, calls: seq<Call<C>>): nat {
    if calls == [] then 0
    else
      var before := calls[..|calls| - 1];
      TakesOpen(s, before) + if calls[|calls| - 1].DoTake? && !Replay(s, before).closed then 1 else 0
  }

  /** The counters over every sequence of calls: hits are the connections handed out, hits and misses the
      takes of an open pool, and discarded and evicted, until it is closed, the connections it closed. */
  lemma {:induction false} CountersTell<C>(maxPerKey: nat, maxTotal: nat, calls: seq<Call<C>>)
    ensures
      var start: Shelf<C> := Empty(maxPerKey, maxTotal);
      var end := Replay(start, calls);
      && end.stats.hits == |Got(start, calls)|
      && end.stats.hits + end.stats.misses == TakesOpen(start, calls)
      && (!end.closed ==> end.stats.discarded + end.stats.evicted == |end.shut|)
  {
    hide After, GotBy, Empty;
    if calls == [] {
      NothingCounted<C>(maxPerKey, maxTotal);
    } else {
      var start: Shelf<C> := Empty(maxPerKey, maxTotal);
      CountersTell(maxPerKey, maxTotal, calls[..|calls| - 1]);
      CallCounters(Replay(start, calls[..|calls| - 1]), calls[|calls| - 1]);
    }
  }

  lemma NothingCounted<C>(maxPerKey: nat, maxTotal: nat)
    ensures Empty<C>(maxPerKey, maxTotal).stats == Stats(0, 0, 0, 0, 0) && Empty<C>(maxPerKey, maxTotal).shut == multiset{}
  {
  }

  lemma CallCounters<C>(s: Shelf<C>, call: Call<C>)
    ensures
      var s' := After(s, call);
      && s'.stats.hits == s.stats.hits + |GotBy(s, call)|
      && s'.stats.hits + s'.stats.misses == s.stats.hits + s.stats.misses + (if call.DoTake? && !s.closed then 1 else 0)
      && (!s'.closed ==>
            && !s.closed
            && s'.stats.discarded + s'.stats.evicted + |s.shut| == s.stats.discarded + s.stats.evicted + |s'.shut|)
  {
    hide Contents, Full;
  }
}

/** The pool as src/pool.js has it: it caches the total and updates its lists in place.  Every method
    is proved against the function of the same name on the shelf. */
module Pool {
  import opened Shelves

  class ConnectionPool<C(==)> {
    var idle: map<string, seq<C>>
    var total: int
    const maxPerKey: nat
    const maxTotal: nat
    var closed: bool
    var stats: Stats
    ghost var shut: multiset<C>

    ghost function Model(): Shelf<C>
      reads this
    {
      Shelf(idle, maxPerKey, maxTotal, closed, stats, shut)
    }

    ghost predicate Valid()
      reads this
    {
      Fits(Model()) && total == Count(idle)
    }

    constructor (maxPerKey: nat, maxTotal: nat)
      ensures Valid() && Model() == Empty(maxPerKey, maxTotal)
    {
      this.idle := map[];
      this.total := 0;
      this.maxPerKey := maxPerKey;
      this.maxTotal := maxTotal;
      this.closed := false;
      this.stats := Stats(0, 0, 0, 0, 0);
      this.shut := multiset{};
    }

    method Take(key: string) returns (taken: Taken<C>)
      requires Valid()
      modifies this
      ensures Valid()
      ensures (Model(), taken) == Shelves.Take(old(Model()), key)
    {
      hide Contents;
      TakeKeeps(Model(), key);
      if closed {
        return PoolClosed;
      }
      if key !in idle || |idle[key]| == 0 {
        stats := stats.(misses := stats.misses + 1);
        return Miss;
      }
      var list := idle[key];
      var conn := list[|list| - 1];
      list := list[..|list| - 1];
      idle := idle[key := list];
      if |list| == 0 {
        idle := idle - {key};
      }
      total := total - 1;
      stats := stats.(hits := stats.hits + 1);
      taken := Hit(conn);
      assert idle == Put(old(idle), key, list);
    }

    method Release(key: string, conn: C, eligible: bool) returns (kept: bool)
      requires Valid()
      modifies this
      ensures Valid()
      ensures (Model(), kept) == Shelves.Release(old(Model()), key, conn, eligible)
    {
      hide Contents, Count;
      ReleaseKeeps(Model(), key, conn, eligible);
      if closed || !eligible {
        stats := stats.(discarded := stats.discarded + 1);
        shut := shut + multiset{conn};
        return false;
      }
      var list := if key in idle then idle[key] else [];
      if |list| >= maxPerKey || total >= maxTotal {
        if |list| > 0 {
          var victim := list[0];
          list := list[1..];
          total := total - 1;
          stats := stats.(evicted := stats.evicted + 1);
          shut := shut + multiset{victim};
        } else {
          stats := stats.(discarded := stats.discarded + 1);
          shut := shut + multiset{conn};
          return false;
        }
      }
      list := list + [conn];
      idle := idle[key := list];
      total := total + 1;
      stats := stats.(released := stats.released + 1);
      kept := true;
    }

    method Discard(conn: C)
      requires Valid()
      modifies this
      ensures Valid()
      ensures Model() == Shelves.Discard(old(Model()), conn)
    {
      stats := stats.(discarded := stats.discarded + 1);
      shut := shut + multiset{conn};
    }

    method CloseAll()
      requires Valid()
      modifies this
      ensures Valid()
      ensures Model() == Shelves.CloseAll(old(Model()))
    {
      hide Contents;
      ContentsPut<C>(map[], "", []);
      closed := true;
      // The source walks the map's lists into one array; here the walk is over the keys.
      var left := idle;
      while left != map[]
        invariant left.Keys <= idle.Keys
        invariant closed && unchanged(`idle) && unchanged(`stats)
        invariant shut + Contents(left) == old(shut + Contents(idle))
        decreases |left|
      {
        var key :| key in left;
        ContentsSplit(left, key);
        shut := shut + multiset(left[key]);
        left := left - {key};
      }
      idle := map[];
      total := 0;
    }
  }
}
