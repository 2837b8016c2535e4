/** The objects of src/client.js and src/tls/tickets.js as the code updates them, held against the
    protocol: what each method leaves is what the corresponding step of module Protocol computes. */
module Client {
  import opened Wrappers
  import S = Shelves
  import R = Registry
  import T = Tickets
  import N = Negotiation
  import P = Protocol
  import St = Steps
  import G = Graceful
  import opened Pool

  type BodyId = nat

  // ---------------------------------------------------------------- tickets

  /** How many tickets at the fresh end of the list have expired. */
  function Stale(list: seq<T.TicketId>, expired: T.TicketId -> bool): (n: nat)
    ensures n <= |list|
    ensures forall k | |list| - n <= k < |list| :: expired(list[k])
    ensures n < |list| ==> !expired(list[|list| - n - 1])
  {
    if list == [] || !expired(list[|list| - 1]) then 0 else 1 + Stale(list[..|list| - 1], expired)
  }

  class TicketStore {
    var byKey: map<string, seq<T.TicketId>>
    ghost var earned: map<T.TicketId, string>
    ghost var offered: seq<(T.TicketId, string)>

    ghost function Model(): T.Store
      reads this
    {
      T.Store(byKey, earned, offered)
    }

    constructor ()
      ensures Model() == T.NoTickets()
    {
      byKey, earned, offered := map[], map[], [];
    }

    method Put(key: string, t: T.TicketId)
      modifies this
      ensures Model() == T.Put(old(Model()), key, t)
    {
      var list := (if key in byKey then byKey[key] else []) + [t];
      ghost var pushed := list;
      ghost var gone := 0;
      assert pushed[0..] == pushed;
      while |list| > T.MAX_PER_KEY
        invariant 0 <= gone <= |pushed| && list == pushed[gone..]
        invariant gone == 0 || |list| >= T.MAX_PER_KEY
      {
        assert pushed[gone..][1..] == pushed[gone + 1..];
        list, gone := list[1..], gone + 1;
      }
      byKey := byKey[key := list];
      earned := earned[t := key];
    }

    /** Expired tickets met on the way are dropped; the first that has not expired is offered. */
    method Take(key: string, expired: T.TicketId -> bool) returns (offer: Option<T.TicketId>)
      modifies this
      ensures (Model(), offer) == T.Take(old(Model()), key, Stale(T.Held(old(Model()), key), expired))
      ensures offer.Some? ==> !expired(offer.value)
    {
      if key !in byKey {
        assert byKey - {key} == byKey;
        return None;
      }
      var list := byKey[key];
      ghost var all := list;
      assert all[..|all|] == all;
      while |list| > 0
        invariant |list| <= |all| && list == all[..|list|]
        invariant Stale(all, expired) == |all| - |list| + Stale(list, expired)
        invariant byKey == old(byKey) && earned == old(earned) && offered == old(offered)
      {
        var t := list[|list| - 1];
        assert all[..|list|][..|list| - 1] == all[..|list| - 1];
        list := list[..|list| - 1];
        if expired(t) {
          continue;
        }
        byKey := if |list| == 0 then byKey - {key} else byKey[key := list];
        offered := offered + [(t, key)];
        return Some(t);
      }
      byKey := byKey - {key};
      offer := None;
      assert Stale(all, expired) == |all|;
    }

    method Clear()
      modifies this
      ensures Model() == T.Clear(old(Model()))
    {
      byKey := map[];
    }
  }

  // ---------------------------------------------------------------- the client

  /** Where a request goes. */
  datatype Route =
    | OnShared(h: R.H2Id)
    | OnPooled(c: P.ConnId)
    | Dials
    | Refused

  /** What the protocol says became of the exchange that was routed. */
  ghost predicate Took(route: Route, phase: P.Phase) {
    match route
    case OnShared(h) => phase == P.H2Wait(h, true)
    case OnPooled(c) => phase == P.Writing(c, P.Pooled)
    case Dials => phase.Opening?
    case Refused => phase.Failed?
  }

  /** Where a request of this key goes once it is turned to the pool, and what becomes of the idle
      connections. */
  predicate ByPool(pool: S.Shelf<P.ConnId>, pool': S.Shelf<P.ConnId>, key: string, route: Route) {
    var list := if key in pool.lists then pool.lists[key] else [];
    if pool.closed then route == Refused && pool' == pool
    else if list == [] then route == Dials && pool'.lists == pool.lists
    else
      && route == OnPooled(list[|list| - 1]) && pool'.lists - {key} == pool.lists - {key}
      && (if key in pool'.lists then pool'.lists[key] else []) == list[..|list| - 1]
  }

  lemma TakeIsByPool(pool: S.Shelf<P.ConnId>, key: string)
    ensures
      var (pool', taken) := S.Take(pool, key);
      ByPool(pool, pool', key, match taken case PoolClosed => Refused case Miss => Dials case Hit(c) => OnPooled(c))
  {
  }

  /** What a step leaves of the part of the world that the client does not touch in it. */
  ghost predicate OnlyPoolAndStore(w: P.World, v: P.World) {
    w.strict == v.strict && w.closed == v.closed && w.registry == v.registry && w.inflight == v.inflight
  }

  lemma FromPoolParts(w: P.World, e: P.ExId, n: nat)
    requires e in w.exs
    requires S.Take(w.pool, w.exs[e].key).1.Hit? ==> S.Take(w.pool, w.exs[e].key).1.conn in w.conns
    ensures
      var v, (pool, taken) := P.FromPool(w, e, n), S.Take(w.pool, w.exs[e].key);
      && OnlyPoolAndStore(w, v) && e in v.exs
      && v.pool == (if taken.PoolClosed? then w.pool else pool)
      && v.store == (if taken.Miss? && !w.strict then T.Take(w.store, w.exs[e].key, n).0 else w.store)
      && Took(match taken case PoolClosed => Refused case Miss => Dials case Hit(c) => OnPooled(c), v.exs[e].phase)
  {
    FromPoolTook(w, e, n);
    hide S.Take, T.Take, P.Carrying, P.Sent, Took;
  }

  lemma FromPoolTook(w: P.World, e: P.ExId, n: nat)
    requires e in w.exs
    requires S.Take(w.pool, w.exs[e].key).1.Hit? ==> S.Take(w.pool, w.exs[e].key).1.conn in w.conns
    ensures
      var v, taken := P.FromPool(w, e, n), S.Take(w.pool, w.exs[e].key).1;
      && e in v.exs
      && Took(match taken case PoolClosed => Refused case Miss => Dials case Hit(c) => OnPooled(c), v.exs[e].phase)
  {
    hide S.Take, T.Take, P.Carrying;
  }

  lemma ClosedPoolStays(pool: S.Shelf<P.ConnId>, key: string)
    ensures S.Take(pool, key).1.PoolClosed? ==> S.Take(pool, key).0 == pool
  {
  }

  lemma ClosedParts(w: P.World, h: R.H2Id)
    requires h in w.registry.known
    ensures P.Next(w, P.Dies(h)) == w.(registry := R.Die(w.registry, h))
    ensures P.Next(w, P.GoesAway(h)) == w.(registry := R.GoAway(w.registry, h))
  {
  }

  lemma CloseParts(w: P.World)
    ensures
      var v := P.Next(w, P.Close);
      && v.strict == w.strict && v.closed && v.inflight == w.inflight && v.store == T.Clear(w.store)
      && v.registry == R.CloseAll(w.registry) && v.pool == S.CloseAll(w.pool)
  {
    hide S.CloseAll, R.CloseAll, T.Clear;
  }

  class Client {
    const pool: ConnectionPool<P.ConnId>
    const tickets: TicketStore
    const strict: bool
    var h2: map<string, R.H2Id>
    var h2conns: set<R.H2Id>
    /** What the HTTP/2 connection objects say of themselves. */
    var known: map<R.H2Id, R.H2>
    var inflight: set<BodyId>
    var closed: bool

    /** The client holds what the world says it does. */
    ghost predicate Shows(w: P.World)
      reads this, pool, tickets
    {
      && pool.Valid() && pool.Model() == w.pool && tickets.Model() == w.store
      && w.registry == R.Register(h2, h2conns, known)
      && w.inflight == inflight && w.closed == closed && w.strict == strict
    }

    constructor (strict: bool, ghost tlsAlpn: Option<N.Offer>, ghost http2: bool, maxPerKey: nat, maxTotal: nat)
      ensures fresh(pool) && fresh(tickets) && Shows(P.Init(strict, tlsAlpn, http2, maxPerKey, maxTotal))
    {
      pool := new ConnectionPool(maxPerKey, maxTotal);
      tickets := new TicketStore();
      this.strict := strict;
      h2, h2conns, known, inflight, closed := map[], {}, map[], {}, false;
    }

    /** The freshest ticket for a new connection; none is looked for under require-staple. */
    method ResumptionFor(key: string, expired: T.TicketId -> bool) returns (offer: Option<T.TicketId>)
      modifies tickets
      ensures strict ==> offer == None && tickets.Model() == old(tickets.Model())
      ensures !strict ==>
                (tickets.Model(), offer) ==
                T.Take(old(tickets.Model()), key, Stale(T.Held(old(tickets.Model()), key), expired))
    {
      if strict {
        return None;
      }
      offer := tickets.Take(key, expired);
    }

    /** From src/client.js:406 on.  That the pool holds known connections only is part of the invariant of
        module Safety. */
    method FromPool(ghost w: P.World, ghost e: P.ExId, key: string, expired: T.TicketId -> bool)
        returns (route: Route)
      requires Shows(w) && e in w.exs && w.exs[e].key == key
      requires S.Take(w.pool, key).1.Hit? ==> S.Take(w.pool, key).1.conn in w.conns
      modifies this, pool, tickets
      ensures Shows(P.FromPool(w, e, Stale(T.Held(w.store, key), expired)))
      ensures Took(route, P.FromPool(w, e, Stale(T.Held(w.store, key), expired)).exs[e].phase)
      ensures ByPool(old(pool.Model()), pool.Model(), key, route)
      ensures h2 == old(h2) && known == old(known)
    {
      TakeIsByPool(w.pool, key);
      FromPoolParts(w, e, Stale(T.Held(w.store, key), expired));
      ClosedPoolStays(w.pool, key);
      hide S.Take, T.Take, Stale, P.FromPool;
      var taken := pool.Take(key);
      match taken
      case PoolClosed => route := Refused;
      case Hit(c) => route := OnPooled(c);
      case Miss =>
        var offer := ResumptionFor(key, expired);
        route := Dials;
    }

    /** An exchange starts. */
    method Exchange(ghost w: P.World, ghost e: P.ExId, key: string, room: bool, expired: T.TicketId -> bool)
        returns (route: Route)
      requires Shows(w) && e !in w.exs
      requires S.Take(w.pool, key).1.Hit? ==> S.Take(w.pool, key).1.conn in w.conns
      modifies this, pool, tickets
      ensures
        var step := P.Start(key, room, Stale(T.Held(w.store, key), expired));
        && P.CanStep(w, e, step)
        && Shows(P.Stepped(w, e, step)) && Took(route, P.Stepped(w, e, step).exs[e].phase)
      ensures h2 == old(h2) && known == old(known)
      ensures
        if room && key in old(h2) && old(h2[key]) in old(known)
           && old(known)[old(h2[key])].alive && !old(known)[old(h2[key])].goingAway
        then route == OnShared(old(h2[key])) && pool.Model() == old(pool.Model()) && tickets.Model() == old(tickets.Model())
        else ByPool(old(pool.Model()), pool.Model(), key, route)
    {
      hide S.Take, T.Take, Stale;
      if key in h2 && room {
        var shared := h2[key];
        if shared in known && known[shared].alive && !known[shared].goingAway {
          return OnShared(shared);
        }
      }
      hide P.FromPool;
      route := FromPool(w.(exs := w.exs[e := P.Unstarted(key)]), e, key, expired);
    }

    /** The shared connection said it had not processed the request. */
    method Retry(ghost w: P.World, ghost e: P.ExId, key: string, expired: T.TicketId -> bool)
        returns (route: Route)
      requires Shows(w) && e in w.exs && w.exs[e].key == key
      requires w.exs[e].phase.H2Wait? && w.exs[e].phase.shared
      requires S.Take(w.pool, key).1.Hit? ==> S.Take(w.pool, key).1.conn in w.conns
      modifies this, pool, tickets
      ensures
        var step := P.H2Refused(Stale(T.Held(w.store, key), expired));
        && P.CanStep(w, e, step)
        && Shows(P.Stepped(w, e, step)) && Took(route, P.Stepped(w, e, step).exs[e].phase)
      ensures ByPool(old(pool.Model()), pool.Model(), key, route)
    {
      hide S.Take, T.Take, Stale, P.FromPool;
      ghost var v := w.(exs := w.exs[e := P.Disowned(w.exs[e]).(phase := P.Failed)]);
      route := FromPool(v, e, key, expired);
    }

    /** registerHttp2: the newest connection of a key is the one dispatched on; one it supersedes stays
        in the set. */
    method RegisterHttp2(ghost w: P.World, ghost e: P.ExId, key: string, h: R.H2Id)
      requires Shows(w) && P.CanStep(w, e, P.Opened(h, Some(N.Http2))) && w.exs[e].key == key
      modifies this
      ensures Shows(P.Stepped(w, e, P.Opened(h, Some(N.Http2))))
    {
      known := known[h := R.H2(key, true, false)];
      h2conns := h2conns + {h};
      h2 := h2[key := h];
    }

    /** onClose of a connection, run when it dies and when its peer says GOAWAY. */
    method OnClose(ghost w: P.World, h: R.H2Id, dies: bool)
      requires Shows(w) && h in known
      modifies this
      ensures Shows(P.Next(w, if dies then P.Dies(h) else P.GoesAway(h)))
    {
      ClosedParts(w, h);
      hide P.Next;
      var key := known[h].key;
      known := known[h := if dies then known[h].(alive := false) else known[h].(goingAway := true)];
      h2conns := h2conns - {h};
      if key in h2 && h2[key] == h {
        h2 := h2 - {key};
      }
    }

    /** onTicket of a connection; the listener is not there under require-staple. */
    method OnTicket(ghost w: P.World, ghost a: P.Action, key: string, t: T.TicketId)
      requires Shows(w) && P.Enabled(w, a) && (a.TicketOnH1? || a.TicketOnH2?) && a.t == t
      requires key == if a.TicketOnH1? then w.conns[a.c].key else w.registry.known[a.h].key
      modifies tickets
      ensures Shows(P.Next(w, a))
    {
      if !strict && !closed {
        tickets.Put(key, t);
      }
    }

    /** The head was read: the body is tracked from here on, over either protocol. */
    method TrackBody(ghost w: P.World, e: P.ExId, ghost step: P.Step)
      requires Shows(w) && P.CanStep(w, e, step) && (step == P.HeadRead(false) || step.H2Answered?)
      modifies this`inflight
      ensures Shows(P.Stepped(w, e, step)) && inflight == old(inflight) + {e}
    {
      inflight := inflight + {e};
    }

    method Untrack(ghost w: P.World, e: P.ExId)
      requires Shows(w) && P.CanStep(w, e, P.Untrack)
      modifies this
      ensures Shows(P.Stepped(w, e, P.Untrack))
    {
      inflight := inflight - {e};
    }

    /** close(): from here on nothing is stored, and what was in the set is closed. */
    method Close(ghost w: P.World)
      requires Shows(w)
      modifies this, pool, tickets
      ensures Shows(P.Next(w, P.Close))
    {
      CloseParts(w);
      hide S.CloseAll, P.Next, R.CloseAll;
      closed := true;
      tickets.Clear();
      CloseHttp2();
      pool.CloseAll();
    }

    /** The set is read before it is emptied. */
    method CloseHttp2()
      modifies `h2, `h2conns, `known
      ensures R.Register(h2, h2conns, known) == R.CloseAll(R.Register(old(h2), old(h2conns), old(known)))
    {
      var all := h2conns;
      h2, h2conns := map[], {};
      known := map h <- known :: if h in all then known[h].(alive := false) else known[h];
    }

    /** idle(), from one await to the next: nothing more to wait for, or the bodies to wait for. */
    method Look(ghost w: P.World) returns (waitFor: Option<set<BodyId>>)
      requires Shows(w)
      ensures G.Look(w) == match waitFor case None => G.Back case Some(seen) => G.Waits(seen)
    {
      waitFor := if inflight == {} then None else Some(inflight);
    }
  }

  /** What the client holds after a failure. */
  lemma ErrorParts(w: P.World, e: P.ExId, step: P.Step)
    requires P.CanStep(w, e, step) && (step.Broken? || step.OpenFailed? || step == P.HeadRead(true))
    ensures
      var v, phase := P.Stepped(w, e, step), w.exs[e].phase;
      && v == w.(exs := v.exs, conns := v.conns, pool := v.pool, inflight := v.inflight)
      && v.inflight == (if step.HeadRead? then w.inflight + {e} else w.inflight)
      && (phase.Opening? ==> v.pool == w.pool)
      && (phase.Redialing? ==> v.pool == S.Discard(w.pool, phase.spent))
      && (phase.Writing? || phase.Reading? ==>
            v.pool == S.Discard(w.pool, if phase.via.Resent? then phase.via.replaced else phase.conn))
      && (phase.Opening? || phase.Redialing? || phase.Writing? || phase.Reading?)
  {
  }

  /** What the client holds after a body has settled. */
  lemma CompletedParts(w: P.World, e: P.ExId, ok: bool)
    requires P.CanStep(w, e, if ok then P.BodyDone else P.BodyCancelled)
    ensures
      var v, phase := P.Stepped(w, e, if ok then P.BodyDone else P.BodyCancelled), w.exs[e].phase;
      && phase.Streaming? && phase.conn in w.conns
      && OnlyPoolAndStore(w, v) && v.store == w.store
      && v.pool == S.Release(w.pool, w.conns[phase.conn].key, phase.conn,
                             ok && phase.left.Determinate? && phase.keepAlive).0
  {
    hide S.Release, P.Victim, S.Full;
  }

  // ---------------------------------------------------------------- the locals of one exchange

  /** What exchange() and sendAndReceive() hold on their stacks: the connection taken from the pool, if
      one was, and the HTTP/1.1 connection in use, if there is one. */
  class Frame {
    const pooled: Option<P.ConnId>
    var conn: Option<P.ConnId>

    /** The locals are those of exchange e. */
    ghost predicate Of(w: P.World, e: P.ExId)
      reads this
    {
      e in w.exs &&
      match w.exs[e].phase
      case Opening => pooled == None && conn == None
      case Writing(c, via) => conn == Some(c) && UsedFor(via, c)
      case Reading(c, via) => conn == Some(c) && UsedFor(via, c)
      case Discarding(spent) => pooled == Some(spent)
      case Redialing(spent) => pooled == Some(spent)
      case Streaming(c, _, _) => conn == Some(c)
      case _ => true
    }

    ghost predicate UsedFor(via: P.Via, c: P.ConnId) {
      match via
      case Pooled => pooled == Some(c)
      case Fresh => pooled == None
      case Resent(replaced) => pooled == Some(replaced)
    }

    /** The exchange was routed to a pooled connection, or to a dial. */
    constructor (route: Route, ghost w: P.World, ghost e: P.ExId)
      requires route.OnPooled? || route.Dials?
      requires e in w.exs && Took(route, w.exs[e].phase)
      ensures Of(w, e)
    {
      pooled := if route.OnPooled? then Some(route.c) else None;
      conn := if route.OnPooled? then Some(route.c) else None;
    }

    /** A connection was opened, as the first one or in the place of a pooled one. */
    method Connect(c: P.ConnId, ghost w: P.World, ghost e: P.ExId, ghost step: P.Step)
      requires Of(w, e) && P.CanStep(w, e, step) && St.Connects(step) == Some(c)
      modifies this
      ensures Of(P.Stepped(w, e, step), e)
    {
      conn := Some(c);
    }

    /** Not one byte came back on the pooled connection: it is discarded. */
    method OnSilence(client: Client, ghost w: P.World, ghost e: P.ExId)
      requires Of(w, e) && client.Shows(w) && P.CanStep(w, e, P.NeverSaw)
      modifies client.pool
      ensures client.Shows(P.Stepped(w, e, P.NeverSaw)) && Of(P.Stepped(w, e, P.NeverSaw), e)
    {
      client.pool.Discard(conn.value);
    }

    /** The catch handlers, src/client.js:412-416 and 455-462.  `tracked` says that the failure came after
        the completion handlers were registered. */
    method OnError(client: Client, ghost w: P.World, e: P.ExId, tracked: bool, ghost step: P.Step)
      requires Of(w, e) && client.Shows(w) && P.CanStep(w, e, step)
      requires if tracked then step == P.HeadRead(true) else step.Broken? || step.OpenFailed?
      modifies client`inflight, client.pool
      ensures client.Shows(P.Stepped(w, e, step))
    {
      ErrorParts(w, e, step);
      hide P.Stepped, P.Ready, P.CanStep, S.Discard, S.Fits;
      if tracked {
        client.inflight := client.inflight + {e};
      }
      if pooled.Some? {
        client.pool.Discard(pooled.value);
      } else if conn.Some? {
        client.pool.Discard(conn.value);
      }
    }

    /** The body broke off: the handler registered with it discards the connection in use. */
    method OnBodyError(client: Client, ghost w: P.World, ghost e: P.ExId)
      requires Of(w, e) && client.Shows(w) && P.CanStep(w, e, P.BodyBroke)
      modifies client.pool
      ensures client.Shows(P.Stepped(w, e, P.BodyBroke))
    {
      client.pool.Discard(conn.value);
    }

    /** `completed` resolved: with true at the declared end, with false when the caller cancelled. */
    method OnCompleted(client: Client, ghost w: P.World, ghost e: P.ExId, key: string, ok: bool, framing: P.Framing,
                       keepAlive: bool)
      requires Of(w, e) && client.Shows(w) && P.CanStep(w, e, if ok then P.BodyDone else P.BodyCancelled)
      requires framing == w.exs[e].phase.left && keepAlive == w.exs[e].phase.keepAlive
      requires key == w.conns[w.exs[e].phase.conn].key
      modifies client.pool
      ensures client.Shows(P.Stepped(w, e, if ok then P.BodyDone else P.BodyCancelled))
      ensures S.Stored(old(client.pool.Model()), client.pool.Model(), key, conn.value,
                     ok && framing.Determinate? && keepAlive)
    {
      S.ReleaseStores(client.pool.Model(), key, conn.value, ok && framing.Determinate? && keepAlive);
      CompletedParts(w, e, ok);
      hide S.Release, S.Full, P.Victim, S.Stored, P.Stepped, P.CanStep, P.Ready;
      var kept := client.pool.Release(key, conn.value, ok && framing.Determinate? && keepAlive);
    }
  }
}
