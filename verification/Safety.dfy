/** What holds in every state a Client can reach (module Protocol), whatever the servers do. */
module Safety {
  import opened Wrappers
  import opened Shelves
  import opened Registry
  import opened Tickets
  import opened Protocol
  import opened Negotiation

  // ---------------------------------------------------------------- one connection

  /** Nothing asked, nothing being answered, nothing left to read. */
  ghost predicate Quiet(conn: Conn) {
    conn.queue == [] && conn.answer.Waiting? && conn.wire == []
  }

  ghost predicate AllBodyOf(wire: seq<Item>, e: ExId) {
    forall i | 0 <= i < |wire| :: wire[i] == Body(e)
  }

  /** What is on the wire, and what the server will still add, is exactly the `left` of e's body. */
  ghost predicate Draining(conn: Conn, e: ExId, left: Framing) {
    && conn.queue == []
    && AllBodyOf(conn.wire, e)
    && match left
       case Determinate(n) =>
         || (conn.answer.Waiting? && |conn.wire| == n)
         || (conn.answer.Sending? && conn.answer.req == e && conn.answer.left.Determinate?
             && 0 < conn.answer.left.len && |conn.wire| + conn.answer.left.len == n)
       case UntilClose => conn.answer == Sending(e, UntilClose)
  }

  /** e's request is the only one outstanding, and nothing but its response is coming. */
  ghost predicate Pending(conn: Conn, e: ExId) {
    || (conn.queue == [e] && conn.answer.Waiting? && conn.wire == [])
    || (conn.queue == [] && conn.answer == Working(e) && conn.wire == [])
    || (conn.queue == [] && conn.answer == Working(e) && conn.hungUp
        && |conn.wire| == 1 && conn.wire[0].Torn? && conn.wire[0].req == e)
    || (conn.wire != [] && conn.wire[0].Head? && conn.wire[0].req == e
        && Draining(conn.(wire := conn.wire[1..]), e, conn.wire[0].framing))
  }

  lemma ServeQuiet(conn: Conn, event: Event)
    requires Quiet(conn) && CanServe(conn, event)
    ensures Quiet(Serve(conn, event)) && Serve(conn, event).said == conn.said
  {
  }

  lemma ServePending(conn: Conn, e: ExId, event: Event)
    requires Pending(conn, e) && CanServe(conn, event)
    ensures Pending(Serve(conn, event), e)
    ensures HeadSaid(conn) ==> HeadSaid(Serve(conn, event))
  {
    var conn' := Serve(conn, event);
    if conn.wire != [] && conn.wire[0].Head? {
      ServeDraining(conn.(wire := conn.wire[1..]), e, conn.wire[0].framing, event);
      assert conn'.(wire := conn'.wire[1..]) == Serve(conn.(wire := conn.wire[1..]), event) by {
        if event.Sends? {
          assert conn'.wire[1..] == conn.wire[1..] + [Body(conn.answer.req)];
        }
      }
    }
  }

  lemma ServeDraining(conn: Conn, e: ExId, left: Framing, event: Event)
    requires Draining(conn, e, left) && CanServe(conn, event)
    ensures Draining(Serve(conn, event), e, left) && Serve(conn, event).said == conn.said
  {
  }

  // ---------------------------------------------------------------- the invariant

  /** An idle or held connection is open, unless a late failure closed it under its body. */
  ghost predicate OpenAsOwned(conn: Conn) {
    && (conn.spoiled ==> !conn.open)
    && match conn.owner
       case Closed => !conn.open
       case Lost => conn.open
       case _ => conn.open || conn.spoiled
  }

  /** A head on the wire says of the connection what its server last said. */
  ghost predicate HeadSaid(conn: Conn) {
    conn.wire != [] && conn.wire[0].Head? ==> conn.wire[0].keepAlive == conn.said
  }

  ghost predicate WireOk(w: World, conn: Conn) {
    match conn.owner
    case Idle => Quiet(conn) && conn.said
    case HeldBy(e) =>
      && e in w.exs
      && (match w.exs[e].phase
          case Writing(_, _) => Pending(conn, e) && HeadSaid(conn) && (w.exs[e].live <==> conn.queue == [])
          case Reading(_, _) => Pending(conn, e) && HeadSaid(conn) && (w.exs[e].live <==> conn.queue == [])
          case Streaming(_, left, keepAlive) => Draining(conn, e, left) && conn.said == keepAlive
          case _ => true)
    case _ => true
  }

  /** A request still waiting at a server is the last copy of its exchange, not yet processed. */
  ghost predicate QueueOk(w: World, c: ConnId, conn: Conn) {
    && |conn.queue| <= 1
    && (conn.queue != [] && !conn.hungUp ==>
          && conn.queue[0] in w.exs
          && w.exs[conn.queue[0]].attempt == OnH1(c)
          && !w.exs[conn.queue[0]].live)
  }

  ghost predicate IdleIn(lists: map<string, seq<ConnId>>, key: string, c: ConnId) {
    key in lists && c in lists[key]
  }

  ghost predicate ConnOk(w: World, c: ConnId)
    requires c in w.conns
  {
    var conn := w.conns[c];
    && (conn.owner.Idle? <==> IdleIn(w.pool.lists, conn.key, c))
    && (conn.owner.HeldBy? ==>
          conn.owner.ex in w.exs && Holding(w.exs[conn.owner.ex].phase) == Some(c))
    && OpenAsOwned(conn)
    && WireOk(w, conn)
    && QueueOk(w, c, conn)
    && (conn.picked == Some(Http2) ==> Lists(w.tlsAlpn))
  }

  ghost predicate HoldsOk(w: World, e: ExId)
    requires e in w.exs
  {
    var x := w.exs[e];
    && (Holding(x.phase).Some? ==>
          && Holding(x.phase).value in w.conns
          && w.conns[Holding(x.phase).value].owner == HeldBy(e)
          && w.conns[Holding(x.phase).value].key == x.key)
    && (x.phase.Discarding? || x.phase.Redialing? ==>
          x.phase.spent in w.conns && w.conns[x.phase.spent].owner.Closed?)
    && ((x.phase.Writing? || x.phase.Reading?) && x.phase.via.Resent? ==>
          x.phase.via.replaced in w.conns && w.conns[x.phase.via.replaced].owner.Closed?)
    && ((x.phase.Writing? || x.phase.Reading?) && !x.phase.via.Pooled? ==>
          w.conns[x.phase.conn].open && !w.conns[x.phase.conn].spoiled)
    && (x.phase.H2Wait? || x.phase.H2Streaming? ==> x.phase.h in w.registry.known)
    && (e in w.inflight <==> x.phase.Streaming? || x.phase.H2Streaming? || x.phase.Settled?)
  }

  /** How many copies have been written, and how many failures were taken as proof, at each point. */
  ghost predicate Budget(x: Exchange) {
    match x.phase
    case H2Wait(_, shared) => x.writes == x.proofs + 1 && x.proofs <= if shared then 0 else 1
    case Opening => x.writes == x.proofs && x.proofs <= 1
    case Writing(_, via) => x.writes == x.proofs + 1 && x.proofs <= if via.Resent? then 2 else 1
    case Reading(_, via) => x.writes == x.proofs + 1 && x.proofs <= if via.Resent? then 2 else 1
    case Discarding(_) => x.writes == x.proofs && x.proofs <= 2
    case Redialing(_) => x.writes == x.proofs && x.proofs <= 2
    case Failed => x.proofs <= x.writes <= x.proofs + 1 && x.proofs <= 2
    case _ => x.writes == x.proofs + 1 && x.proofs <= 2
  }

  /** The head of the response has been read. */
  predicate Answered(phase: Phase) {
    phase.Streaming? || phase.H2Streaming? || phase.Settled? || phase.Finished?
  }

  ghost predicate ExOk(x: Exchange, e: ExId) {
    && Budget(x)
    && x.processed == x.slips + (if x.live then 1 else 0)
    && x.slips <= x.proofs
    && (x.thrown ==> x.unheld)
    && (x.unheld ==> Answered(x.phase))
    && (x.stuck ==> x.unheld && (x.phase.Streaming? || x.phase.H2Streaming?))
    && (x.attempt.Nowhere? ==> !x.live)
    && (match x.phase
        case H2Wait(_, _) => x.attempt == OnH2
        case Writing(c, _) => x.attempt == OnH1(c)
        case Reading(c, _) => x.attempt == OnH1(c)
        case Opening => x.attempt.Nowhere?
        case Discarding(_) => x.attempt.Nowhere?
        case Redialing(_) => x.attempt.Nowhere?
        case _ => true)
    && (forall tag <- x.got :: tag == e)
  }

  ghost predicate PoolOk(w: World) {
    && Fits(w.pool)
    && w.pool.closed == w.closed
    && (w.closed ==> w.pool.lists == map[])
    && (forall key, c :: IdleIn(w.pool.lists, key, c) ==> c in w.conns && w.conns[c].key == key)
    && (forall key <- w.pool.lists :: Tickets.Distinct(w.pool.lists[key]))
  }

  ghost predicate StoreOk(store: Store, closed: bool, strict: bool) {
    && Isolated(store) && SingleUse(store)
    && (closed ==> store.held == map[])
    && (strict ==> store.held == map[] && store.offered == [])
  }

  ghost predicate Inv(w: World) {
    && (forall c <- w.conns :: ConnOk(w, c))
    && (forall e <- w.exs :: HoldsOk(w, e))
    && (forall e <- w.exs :: ExOk(w.exs[e], e))
    && w.inflight <= w.exs.Keys
    && PoolOk(w)
    && Consistent(w.registry)
    && StoreOk(w.store, w.closed, w.strict)
  }

  // ---------------------------------------------------------------- changing one exchange

  /** w' differs from w in exchange e, in connections no other exchange holds, and in the shared
      collections. */
  ghost predicate Evolves(w: World, w': World, e: ExId) {
    && w'.strict == w.strict && w'.tlsAlpn == w.tlsAlpn && w'.http2 == w.http2
    && w'.exs.Keys == w.exs.Keys + {e}
    && (forall other <- w.exs :: other != e ==> w'.exs[other] == w.exs[other])
    && (forall c <- w.conns ::
          && c in w'.conns && w'.conns[c].key == w.conns[c].key
          && (w.conns[c].owner.Closed? ==> w'.conns[c].owner.Closed?)
          && (w.conns[c].owner.HeldBy? && w.conns[c].owner.ex != e ==> w'.conns[c] == w.conns[c]))
    && (forall h <- w.registry.known :: h in w'.registry.known)
    && w'.inflight - {e} == w.inflight - {e}
  }

  /** A connection the change leaves alone. */
  ghost predicate Apart(w: World, w': World, e: ExId, c: ConnId)
    requires c in w'.conns && e in w'.exs
  {
    && c in w.conns && w'.conns[c] == w.conns[c]
    && w.conns[c].owner != HeldBy(e)
    && (IdleIn(w'.pool.lists, w.conns[c].key, c) <==> IdleIn(w.pool.lists, w.conns[c].key, c))
    && (e in w.exs && w.exs[e].attempt == OnH1(c) ==>
          w'.exs[e].attempt == OnH1(c) && w'.exs[e].live == w.exs[e].live)
  }

  ghost predicate ConnsOk(w: World, w': World, e: ExId, touched: set<ConnId>) {
    && e in w'.exs
    && forall c <- w'.conns :: if c in touched then ConnOk(w', c) else Apart(w, w', e, c)
  }

  ghost predicate SelfOk(w: World, e: ExId) {
    e in w.exs && HoldsOk(w, e) && ExOk(w.exs[e], e)
  }

  lemma ConnFrame(w: World, w': World, e: ExId, c: ConnId)
    requires c in w.conns && ConnOk(w, c)
    requires Evolves(w, w', e) && c in w'.conns && Apart(w, w', e, c)
    ensures ConnOk(w', c)
  {
  }

  lemma HoldsFrame(w: World, w': World, e: ExId, other: ExId)
    requires other in w.exs && HoldsOk(w, other) && other != e
    requires Evolves(w, w', e)
    ensures HoldsOk(w', other)
  {
    assert other in w'.inflight <==> other in w'.inflight - {e};
  }

  /** The invariant holds after a change if it holds of what changed. */
  lemma Assemble(w: World, w': World, e: ExId, touched: set<ConnId>)
    requires Inv(w) && Evolves(w, w', e) && ConnsOk(w, w', e, touched) && SelfOk(w', e)
    requires PoolOk(w') && Consistent(w'.registry) && StoreOk(w'.store, w'.closed, w'.strict)
    ensures Inv(w')
  {
    hide PoolOk; hide Consistent; hide StoreOk; hide ExOk;
    forall c <- w'.conns ensures ConnOk(w', c) {
      if c !in touched {
        ConnFrame(w, w', e, c);
      }
    }
    forall other <- w'.exs ensures HoldsOk(w', other) {
      if other != e {
        HoldsFrame(w, w', e, other);
      }
    }
    hide *;
    assert w'.inflight <= w'.exs.Keys by {
      forall other <- w'.inflight ensures other in w'.exs {
        if other != e {
          assert other in w'.inflight - {e};
        }
      }
    }
  }

  lemma PoolFrame(w: World, w': World)
    requires PoolOk(w)
    requires w'.pool.(stats := w.pool.stats, shut := w.pool.shut) == w.pool && w'.closed == w.closed
    requires forall c <- w.conns :: c in w'.conns && w'.conns[c].key == w.conns[c].key
    ensures PoolOk(w')
  {
  }

  // ---------------------------------------------------------------- the pieces of a step

  /** The invariant as exchange e sees it. */
  lemma View(w: World, e: ExId)
    requires Inv(w) && e in w.exs
    ensures HoldsOk(w, e) && ExOk(w.exs[e], e)
    ensures PoolOk(w) && Consistent(w.registry) && StoreOk(w.store, w.closed, w.strict)
    ensures forall c <- w.conns :: w.conns[c].owner == HeldBy(e) <==> Holding(w.exs[e].phase) == Some(c)
  {
    forall c <- w.conns
      ensures w.conns[c].owner == HeldBy(e) <==> Holding(w.exs[e].phase) == Some(c)
    {
      assert ConnOk(w, c);
    }
  }

  /** A change of exchange e that neither gains nor loses a connection. */
  lemma PhaseKeeps(w: World, w': World, e: ExId)
    requires Inv(w) && e in w.exs
    requires w' == w.(exs := w'.exs, inflight := w'.inflight, pool := w'.pool)
    requires e in w'.exs && w'.exs == w.exs[e := w'.exs[e]] && w'.inflight - {e} == w.inflight - {e}
    requires w'.pool.(stats := w.pool.stats, shut := w.pool.shut) == w.pool
    requires Holding(w.exs[e].phase).None?
    requires w'.exs[e].attempt == w.exs[e].attempt || !w.exs[e].attempt.OnH1?
    requires w'.exs[e].live == w.exs[e].live || !w.exs[e].attempt.OnH1?
    requires SelfOk(w', e)
    ensures Inv(w')
  {
    hide Inv, PoolOk, Consistent, StoreOk, HoldsOk, SelfOk;
    View(w, e);
    PoolFrame(w, w');
    Assemble(w, w', e, {});
  }

  lemma CarryingPends(conn: Conn, e: ExId)
    requires Quiet(conn)
    ensures Pending(Carrying(conn, e), e) && HeadSaid(Carrying(conn, e))
  {
  }

  lemma ConnectedEvolves(w: World, e: ExId, c: ConnId, via: Via, pick: Option<Proto>)
    requires Inv(w) && e in w.exs && c !in w.conns
    requires MayConnect(w.exs[e].phase, via)
    ensures Evolves(w, Connected(w, e, c, via, pick), e)
    ensures SelfOk(Connected(w, e, c, via, pick), e)
  {
    hide Inv, PoolOk, Consistent, StoreOk;
    View(w, e);
  }

  predicate MayConnect(phase: Phase, via: Via) {
    match phase
    case Opening => via.Fresh?
    case Redialing(spent) => via == Resent(spent)
    case _ => false
  }

  lemma ConnectedConns(w: World, e: ExId, c: ConnId, via: Via, pick: Option<Proto>)
    requires Inv(w) && e in w.exs && c !in w.conns
    requires MayConnect(w.exs[e].phase, via)
    requires pick == Some(Http2) ==> Lists(w.tlsAlpn)
    ensures ConnsOk(w, Connected(w, e, c, via, pick), e, {c})
  {
    hide Inv, Pending, Consistent, StoreOk, HoldsOk, Fits;
    View(w, e);
    CarryingPends(NewConn(w.exs[e].key, pick), e);
  }

  lemma ConnectedKeeps(w: World, e: ExId, c: ConnId, via: Via, pick: Option<Proto>)
    requires Inv(w) && e in w.exs && c !in w.conns
    requires MayConnect(w.exs[e].phase, via)
    requires pick == Some(Http2) ==> Lists(w.tlsAlpn)
    ensures Inv(Connected(w, e, c, via, pick))
  {
    hide Inv, PoolOk, Consistent, StoreOk, Evolves, SelfOk, HoldsOk, ConnsOk;
    View(w, e);
    PoolFrame(w, Connected(w, e, c, via, pick));
    ConnectedEvolves(w, e, c, via, pick);
    ConnectedConns(w, e, c, via, pick);
    Assemble(w, Connected(w, e, c, via, pick), e, {c});
  }

  // ---------------------------------------------------------------- HTTP/2

  lemma DispatchKeeps(w: World, e: ExId, h: H2Id, shared: bool)
    requires Inv(w) && e in w.exs && h in w.registry.known
    requires Holding(w.exs[e].phase).None? && e !in w.inflight && w.exs[e].attempt.Nowhere?
    requires w.exs[e].writes == w.exs[e].proofs <= if shared then 0 else 1
    ensures Inv(DispatchH2(w, e, h, shared))
  {
    var w' := DispatchH2(w, e, h, shared);
    hide Inv, PoolOk, Consistent, StoreOk;
    View(w, e);
    PhaseKeeps(w, w', e);
  }

  lemma AddKeeps(w: World, key: Key, h: H2Id)
    requires Inv(w) && h !in w.registry.known
    ensures Inv(w.(registry := Registry.Add(w.registry, key, h)))
  {
    RegistryKeeps(w, Registry.Add(w.registry, key, h));
  }

  /** The registry may change on its own, as long as it forgets no connection's existence. */
  lemma RegistryKeeps(w: World, registry: Register)
    requires Inv(w) && Consistent(registry) && w.registry.known.Keys <= registry.known.Keys
    ensures Inv(w.(registry := registry))
  {
    var w' := w.(registry := registry);
    hide Consistent, StoreOk, ExOk, OpenAsOwned;
    forall c <- w'.conns ensures ConnOk(w', c) {
      assert ConnOk(w, c);
    }
    forall e <- w'.exs ensures HoldsOk(w', e) {
      assert HoldsOk(w, e);
    }
    assert PoolOk(w');
  }

  lemma StoreKeeps(w: World, store: Store)
    requires Inv(w) && StoreOk(store, w.closed, w.strict)
    ensures Inv(w.(store := store))
  {
    var w' := w.(store := store);
    hide Consistent, StoreOk, ExOk, OpenAsOwned;
    forall c <- w'.conns ensures ConnOk(w', c) {
      assert ConnOk(w, c);
    }
    forall e <- w'.exs ensures HoldsOk(w', e) {
      assert HoldsOk(w, e);
    }
    assert PoolOk(w');
  }

  // ---------------------------------------------------------------- starting, and taking from the pool

  lemma NewKeeps(w: World, e: ExId, key: Key)
    requires Inv(w) && e !in w.exs
    ensures Inv(w.(exs := w.exs[e := Unstarted(key)]))
  {
    var w' := w.(exs := w.exs[e := Unstarted(key)]);
    assert PoolOk(w) && Consistent(w.registry) && StoreOk(w.store, w.closed, w.strict) && w.inflight <= w.exs.Keys;
    forall c <- w.conns ensures Apart(w, w', e, c) {
      assert ConnOk(w, c);
    }
    hide Inv, PoolOk, Consistent, StoreOk, ConnOk;
    PoolFrame(w, w');
    Assemble(w, w', e, {});
  }

  lemma TakeIdle(lists: map<string, seq<ConnId>>, key: Key)
    requires key in lists && lists[key] != [] && Tickets.Distinct(lists[key])
    ensures
      var list := lists[key];
      var lists' := Shelves.Put(lists, key, list[..|list| - 1]);
      && IdleIn(lists, key, list[|list| - 1])
      && (forall k, c :: IdleIn(lists', k, c) <==> IdleIn(lists, k, c) && !(k == key && c == list[|list| - 1]))
      && (forall k <- lists' :: k in lists && lists'[k] <= lists[k])
  {
    var list := lists[key];
    forall c ensures c in list[..|list| - 1] <==> c in list && c != list[|list| - 1] {
      if c in list && c != list[|list| - 1] {
        var i :| 0 <= i < |list| && list[i] == c;
        assert list[..|list| - 1][i] == c;
      }
    }
  }

  lemma TakePoolOk(w: World, w': World, key: Key)
    requires PoolOk(w) && !w.closed && Listed(w.pool.lists, key) != []
    requires w'.pool == Shelves.Take(w.pool, key).0 && w'.closed == w.closed
    requires forall c <- w.conns :: c in w'.conns && w'.conns[c].key == w.conns[c].key
    ensures PoolOk(w')
  {
    hide Count;
    Shelves.TakeKeeps(w.pool, key);
    TakeIdle(w.pool.lists, key);
    hide Fits;
  }

  /** An exchange between connections, with every copy it wrote disowned. */
  ghost predicate Unattached(w: World, e: ExId) {
    && e in w.exs && e !in w.inflight
    && w.exs[e].phase.Failed? && w.exs[e].attempt.Nowhere?
    && w.exs[e].writes == w.exs[e].proofs <= 1
  }

  lemma HitEvolves(w: World, e: ExId, c: ConnId, w': World)
    requires Inv(w) && Unattached(w, e)
    requires c in w.conns && w.conns[c].owner.Idle? && w.conns[c].key == w.exs[e].key
    requires w' == w.(pool := w'.pool, exs := w.exs[e := Sent(w.exs[e], c, Pooled)],
                      conns := w.conns[c := Carrying(w.conns[c], e)])
    ensures Evolves(w, w', e) && SelfOk(w', e)
  {
    hide Inv, PoolOk, Consistent, StoreOk;
    View(w, e);
  }

  lemma HitConns(w: World, e: ExId, c: ConnId, w': World)
    requires Inv(w) && Unattached(w, e)
    requires c in w.conns && w.conns[c].owner.Idle? && w.conns[c].key == w.exs[e].key
    requires w' == w.(pool := w'.pool, exs := w.exs[e := Sent(w.exs[e], c, Pooled)],
                      conns := w.conns[c := Carrying(w.conns[c], e)])
    requires forall k, d :: IdleIn(w'.pool.lists, k, d) <==> IdleIn(w.pool.lists, k, d) && !(k == w.exs[e].key && d == c)
    ensures ConnsOk(w, w', e, {c})
  {
    assert ConnOk(w, c);
    hide Inv, PoolOk, Consistent, StoreOk, Pending;
    View(w, e);
    CarryingPends(w.conns[c], e);
  }

  lemma FromPoolKeeps(w: World, e: ExId, expired: nat)
    requires Inv(w) && Unattached(w, e)
    ensures Inv(FromPool(w, e, expired))
  {
    var w' := FromPool(w, e, expired);
    var (pool, taken) := Shelves.Take(w.pool, w.exs[e].key);
    hide Inv, PoolOk, Consistent, StoreOk, HoldsOk, Evolves, SelfOk, ConnsOk;
    View(w, e);
    match taken
    case PoolClosed =>
      assert w' == w.(exs := w.exs[e := w.exs[e]]);
      assert w' == w;
    case Miss =>
      MissKeeps(w, e, expired);
    case Hit(c) =>
      HitKeeps(w, e, expired);
  }

  /** What the pool hands out. */
  lemma TakenIsIdle(w: World, key: Key, c: ConnId)
    requires Inv(w) && Shelves.Take(w.pool, key).1 == Hit(c)
    ensures c in w.conns && w.conns[c].owner.Idle? && w.conns[c].key == key
    ensures
      var lists' := Shelves.Take(w.pool, key).0.lists;
      forall k, d :: IdleIn(lists', k, d) <==> IdleIn(w.pool.lists, k, d) && !(k == key && d == c)
  {
    assert PoolOk(w);
    hide Inv, Count;
    TakeIdle(w.pool.lists, key);
    IdleConn(w, key, c);
  }

  lemma IdleConn(w: World, key: Key, c: ConnId)
    requires Inv(w) && IdleIn(w.pool.lists, key, c)
    ensures c in w.conns && w.conns[c].owner.Idle? && w.conns[c].key == key
  {
    assert PoolOk(w);
    assert ConnOk(w, c);
  }

  lemma HitKeeps(w: World, e: ExId, expired: nat)
    requires Inv(w) && Unattached(w, e)
    requires Shelves.Take(w.pool, w.exs[e].key).1.Hit?
    ensures Inv(FromPool(w, e, expired))
  {
    var w' := FromPool(w, e, expired);
    var key, c := w.exs[e].key, Shelves.Take(w.pool, w.exs[e].key).1.conn;
    hide Inv, Consistent, StoreOk, HoldsOk, Evolves, SelfOk, ConnsOk, PoolOk;
    View(w, e);
    TakenIsIdle(w, key, c);
    TakePoolOk(w, w', key);
    HitEvolves(w, e, c, w');
    HitConns(w, e, c, w');
    Assemble(w, w', e, {c});
  }

  /** Dialling: a change of phase, and perhaps a ticket spent. */
  lemma DialKeeps(w: World, e: ExId, phase: Phase, expired: nat)
    requires Inv(w) && e in w.exs && e !in w.inflight && Holding(w.exs[e].phase).None?
    requires w.exs[e].attempt.Nowhere? && w.exs[e].writes == w.exs[e].proofs
    requires match phase
             case Opening => w.exs[e].proofs <= 1
             case Redialing(spent) => w.exs[e].phase == Discarding(spent)
             case _ => false
    ensures Inv(Dial(w, e, phase, expired))
  {
    var w' := SetPhase(w, e, phase);
    hide Inv, PoolOk, Consistent, StoreOk;
    View(w, e);
    PhaseKeeps(w, w', e);
    if !w.strict {
      OfferKeeps(w, w.exs[e].key, expired);
      StoreKeeps(w', Tickets.Take(w.store, w.exs[e].key, expired).0);
    }
  }

  lemma OfferKeeps(w: World, key: Key, expired: nat)
    requires StoreOk(w.store, w.closed, w.strict) && !w.strict
    ensures StoreOk(Tickets.Take(w.store, key, expired).0, w.closed, w.strict)
  {
    Tickets.TakeKeeps(w.store, key, expired);
  }

  lemma MissKeeps(w: World, e: ExId, expired: nat)
    requires Inv(w) && Unattached(w, e)
    requires Shelves.Take(w.pool, w.exs[e].key).1.Miss?
    ensures Inv(FromPool(w, e, expired))
  {
    var w1 := w.(pool := Shelves.Take(w.pool, w.exs[e].key).0);
    hide Inv, PoolOk, Consistent, StoreOk, HoldsOk;
    View(w, e);
    assert w1.exs == w.exs[e := w.exs[e]];
    MissFrame(w, e, w1);
    PhaseKeeps(w, w1, e);
    DialKeeps(w1, e, Opening, expired);
  }

  lemma MissFrame(w: World, e: ExId, w1: World)
    requires SelfOk(w, e) && w1 == w.(pool := w1.pool)
    ensures SelfOk(w1, e)
  {
  }

  // ---------------------------------------------------------------- letting go of a connection

  /** e gives up the connection c it holds, which is closed or lost. */
  ghost predicate LetsGo(w: World, w': World, e: ExId, c: ConnId) {
    && e in w.exs && e in w'.exs && c in w.conns && c in w'.conns
    && Holding(w.exs[e].phase) == Some(c) && Holding(w'.exs[e].phase).None?
    && w' == w.(exs := w.exs[e := w'.exs[e]], conns := w.conns[c := w'.conns[c]], pool := w'.pool)
    && w'.pool.(stats := w.pool.stats, shut := w.pool.shut) == w.pool
    && (w'.conns[c] == Shut(w.conns[c])
        || (w.conns[c].open && w'.conns[c] == w.conns[c].(owner := Lost)))
    && ((w'.exs[e].attempt == w.exs[e].attempt && w'.exs[e].live == w.exs[e].live)
        || w.conns[c].hungUp)
    && (w.exs[e].attempt == w'.exs[e].attempt || w.exs[e].attempt == OnH1(c))
    && (w.exs[e].live == w'.exs[e].live || w.exs[e].attempt == OnH1(c))
  }

  lemma LetsGoEvolves(w: World, w': World, e: ExId, c: ConnId)
    requires Inv(w) && LetsGo(w, w', e, c)
    ensures Evolves(w, w', e)
  {
    hide Inv, PoolOk, Consistent, StoreOk, HoldsOk;
    View(w, e);
  }

  lemma LetsGoConns(w: World, w': World, e: ExId, c: ConnId)
    requires Inv(w) && LetsGo(w, w', e, c) && w.conns[c].owner == HeldBy(e) && ConnOk(w, c)
    ensures ConnsOk(w, w', e, {c})
  {
    hide Inv, PoolOk, Consistent, StoreOk, HoldsOk, Pending, Draining;
    View(w, e);
  }

  lemma LetsGoKeeps(w: World, w': World, e: ExId, c: ConnId)
    requires Inv(w) && LetsGo(w, w', e, c) && SelfOk(w', e)
    ensures Inv(w')
  {
    assert w.conns[c].owner == HeldBy(e) && ConnOk(w, c) by {
      assert HoldsOk(w, e);
    }
    hide Inv, PoolOk, Consistent, StoreOk, HoldsOk, SelfOk, Evolves, ConnsOk, ConnOk;
    View(w, e);
    LetsGoEvolves(w, w', e, c);
    LetsGoConns(w, w', e, c);
    PoolFrame(w, w');
    Assemble(w, w', e, {c});
  }

  // ---------------------------------------------------------------- giving a connection back

  /** A list with c put at its end, and its oldest entry taken off if one must go. */
  function PushedOn(list: seq<ConnId>, c: ConnId, evict: bool): seq<ConnId>
    requires evict ==> list != []
  {
    if evict then list[1..] + [c] else list + [c]
  }

  /** Where the idle connections are after c is put back under `key`. */
  ghost predicate PutBack(lists: map<string, seq<ConnId>>, key: Key, c: ConnId, evict: bool, k: Key, d: ConnId) {
    if k == key && d == c then true
    else IdleIn(lists, k, d) && !(evict && k == key && Listed(lists, key) != [] && d == Listed(lists, key)[0])
  }

  lemma PutBackIdle(lists: map<string, seq<ConnId>>, key: Key, c: ConnId, evict: bool)
    requires forall k :: !IdleIn(lists, k, c)
    requires forall k <- lists :: Tickets.Distinct(lists[k])
    requires evict ==> Listed(lists, key) != []
    ensures Tickets.Distinct(PushedOn(Listed(lists, key), c, evict))
    ensures
      var lists' := lists[key := PushedOn(Listed(lists, key), c, evict)];
      forall k, d :: IdleIn(lists', k, d) <==> PutBack(lists, key, c, evict, k, d)
  {
    var list := Listed(lists, key);
    assert Tickets.Distinct(list) && c !in list by {
      assert !IdleIn(lists, key, c);
    }
    PushOldestOut(list, c, evict);
    var lists' := lists[key := PushedOn(list, c, evict)];
    forall k, d
      ensures IdleIn(lists', k, d) <==> PutBack(lists, key, c, evict, k, d)
    {
    }
  }

  lemma PushOldestOut(list: seq<ConnId>, c: ConnId, evict: bool)
    requires Tickets.Distinct(list) && c !in list && (evict ==> list != [])
    ensures Tickets.Distinct(PushedOn(list, c, evict))
    ensures forall d :: d in PushedOn(list, c, evict) <==> d == c || (d in list && !(evict && d == list[0]))
  {
    if evict {
      forall d ensures d in list[1..] <==> d in list && d != list[0] {
        if d in list && d != list[0] {
          var i :| 0 <= i < |list| && list[i] == d;
          assert list[1..][i - 1] == d;
        }
      }
    }
  }

  /** e's body ended where its framing said, and the pool keeps its connection. */
  ghost predicate GivesBack(w: World, w': World, e: ExId, c: ConnId, evict: bool) {
    && e in w.exs && c in w.conns && Holding(w.exs[e].phase) == Some(c)
    && w.conns[c].owner == HeldBy(e) && Quiet(w.conns[c]) && w.conns[c].said && ConnOk(w, c)
    && !w.closed
    && var key := w.conns[c].key; var list := Listed(w.pool.lists, key);
    && (evict ==> list != [] && list[0] in w.conns && list[0] != c
                  && w.conns[list[0]].owner.Idle? && w.conns[list[0]].key == key && ConnOk(w, list[0]))
    && w' == w.(
         pool := w'.pool,
         exs := w.exs[e := w.exs[e].(phase := Settled)],
         conns := (if evict then w.conns[list[0] := Shut(w.conns[list[0]])] else w.conns)
                    [c := w.conns[c].(owner := Idle)])
    && w'.pool.closed == w.pool.closed
    && w'.pool.lists == w.pool.lists[key := PushedOn(list, c, evict)]
  }

  lemma GivesBackEvolves(w: World, w': World, e: ExId, c: ConnId, evict: bool)
    requires Inv(w) && GivesBack(w, w', e, c, evict)
    ensures Evolves(w, w', e)
  {
    hide Inv, PoolOk, Consistent, StoreOk, HoldsOk, ConnOk, Quiet;
  }

  lemma GivesBackConns(w: World, w': World, e: ExId, c: ConnId, evict: bool)
    requires Inv(w) && GivesBack(w, w', e, c, evict)
    requires forall k, d ::
               IdleIn(w'.pool.lists, k, d) <==> PutBack(w.pool.lists, w.conns[c].key, c, evict, k, d)
    ensures ConnsOk(w, w', e, if evict then {c, Listed(w.pool.lists, w.conns[c].key)[0]} else {c})
  {
    hide Inv, PoolOk, Consistent, StoreOk, HoldsOk, Pending, Draining, IdleIn;
    View(w, e);
  }

  lemma GivesBackPool(w: World, w': World, e: ExId, c: ConnId, evict: bool)
    requires PoolOk(w) && GivesBack(w, w', e, c, evict) && Fits(w'.pool)
    requires forall k :: !IdleIn(w.pool.lists, k, c)
    ensures PoolOk(w')
    ensures forall k, d ::
              IdleIn(w'.pool.lists, k, d) <==> PutBack(w.pool.lists, w.conns[c].key, c, evict, k, d)
  {
    hide ConnOk, Fits, Quiet;
    PutBackIdle(w.pool.lists, w.conns[c].key, c, evict);
  }

  lemma GivesBackKeeps(w: World, w': World, e: ExId, c: ConnId, evict: bool)
    requires Inv(w) && GivesBack(w, w', e, c, evict) && Fits(w'.pool)
    requires SelfOk(w', e)
    ensures Inv(w')
  {
    assert forall k :: !IdleIn(w.pool.lists, k, c) by {
      forall k ensures !IdleIn(w.pool.lists, k, c) {
        if IdleIn(w.pool.lists, k, c) {
          IdleConn(w, k, c);
        }
      }
    }
    hide Inv, PoolOk, Consistent, StoreOk, HoldsOk, SelfOk, Evolves, ConnsOk, ConnOk, Quiet, Fits;
    View(w, e);
    GivesBackEvolves(w, w', e, c, evict);
    GivesBackPool(w, w', e, c, evict);
    GivesBackConns(w, w', e, c, evict);
    Assemble(w, w', e, if evict then {c, Listed(w.pool.lists, w.conns[c].key)[0]} else {c});
  }

  /** The connection e holds, as the invariant sees it. */
  lemma HeldConn(w: World, e: ExId)
    requires Inv(w) && e in w.exs && Holding(w.exs[e].phase).Some?
    ensures
      var c := Holding(w.exs[e].phase).value;
      && c in w.conns && w.conns[c].owner == HeldBy(e) && w.conns[c].key == w.exs[e].key
      && ConnOk(w, c)
  {
    assert HoldsOk(w, e);
  }

  lemma SettledSelf(w: World, w': World, e: ExId)
    requires SelfOk(w, e) && w.exs[e].phase.Streaming? && !w.exs[e].stuck
    requires w'.exs == w.exs[e := w.exs[e].(phase := Settled)] && w'.inflight == w.inflight
    ensures SelfOk(w', e)
  {
  }

  /** A body settles, and pool.release decides about its connection. */
  lemma GiveBackKeeps(w: World, e: ExId, eligible: bool)
    requires Inv(w) && e in w.exs && w.exs[e].phase.Streaming? && !w.exs[e].stuck
    requires w.exs[e].phase.conn in w.conns
    requires eligible ==> w.exs[e].phase.left == Determinate(0) && w.exs[e].phase.keepAlive
    ensures Inv(SetPhase(GiveBack(w, w.exs[e].phase.conn, eligible), e, Settled))
  {
    var c := w.exs[e].phase.conn;
    var w' := SetPhase(GiveBack(w, c, eligible), e, Settled);
    var key := w.conns[c].key;
    HeldConn(w, e);
    hide Inv, PoolOk, Consistent, StoreOk, HoldsOk, SelfOk;
    View(w, e);
    SettledSelf(w, w', e);
    if Shelves.Release(w.pool, key, c, eligible).1 {
      KeptKeeps(w, w', e, c);
    } else {
      hide Full, ConnOk;
      LetsGoKeeps(w, w', e, c);
    }
  }

  lemma KeptKeeps(w: World, w': World, e: ExId, c: ConnId)
    requires Inv(w) && e in w.exs && w.exs[e].phase.Streaming? && w.exs[e].phase.conn == c
    requires w.exs[e].phase.left == Determinate(0) && w.exs[e].phase.keepAlive
    requires c in w.conns && w.conns[c].owner == HeldBy(e) && ConnOk(w, c)
    requires w' == SetPhase(GiveBack(w, c, true), e, Settled) && SelfOk(w', e)
    requires Shelves.Release(w.pool, w.conns[c].key, c, true).1
    ensures Inv(w')
  {
    var key := w.conns[c].key;
    var evict := Full(w.pool, key);
    assert Quiet(w.conns[c]) && w.conns[c].said;
    hide Inv, Consistent, StoreOk, HoldsOk, SelfOk, Count, WireOk;
    View(w, e);
    Shelves.ReleaseKeeps(w.pool, key, c, true);
    if evict {
      var victim := Listed(w.pool.lists, key)[0];
      assert IdleIn(w.pool.lists, key, victim);
      VictimIdle(w, key, victim);
    }
    hide PoolOk, ConnOk, Fits, Quiet;
    GivesBackKeeps(w, w', e, c, evict);
  }

  lemma VictimIdle(w: World, key: Key, c: ConnId)
    requires Inv(w) && IdleIn(w.pool.lists, key, c)
    ensures c in w.conns && w.conns[c].owner.Idle? && w.conns[c].key == key && ConnOk(w, c)
  {
    IdleConn(w, key, c);
  }

  // ---------------------------------------------------------------- reading a response

  /** e goes on holding c, whose owner and requests do not change. */
  ghost predicate Reads(w: World, w': World, e: ExId, c: ConnId) {
    && e in w.exs && e in w'.exs && c in w.conns && c in w'.conns
    && Holding(w.exs[e].phase) == Some(c) && Holding(w'.exs[e].phase) == Some(c)
    && w' == w.(exs := w.exs[e := w'.exs[e]], conns := w.conns[c := w'.conns[c]], pool := w'.pool,
                inflight := w'.inflight)
    && w'.inflight - {e} == w.inflight - {e}
    && w'.pool.(stats := w.pool.stats, shut := w.pool.shut) == w.pool
    && w'.exs[e].attempt == w.exs[e].attempt && w'.exs[e].live == w.exs[e].live
    && w'.conns[c] == w.conns[c].(wire := w'.conns[c].wire, open := w'.conns[c].open, spoiled := w'.conns[c].spoiled)
    && ((w'.conns[c].open == w.conns[c].open && w'.conns[c].spoiled == w.conns[c].spoiled)
        || (!w'.conns[c].open && w'.conns[c].spoiled))
  }

  lemma ReadsEvolves(w: World, w': World, e: ExId, c: ConnId)
    requires Inv(w) && Reads(w, w', e, c) && w.conns[c].owner == HeldBy(e)
    ensures Evolves(w, w', e)
  {
    hide Inv, PoolOk, Consistent, StoreOk, HoldsOk, ConnOk;
  }

  lemma ReadsConns(w: World, w': World, e: ExId, c: ConnId)
    requires Inv(w) && Reads(w, w', e, c) && w.conns[c].owner == HeldBy(e) && ConnOk(w, c)
    requires WireOk(w', w'.conns[c])
    ensures ConnsOk(w, w', e, {c})
  {
    hide Inv, PoolOk, Consistent, StoreOk, HoldsOk, WireOk;
    View(w, e);
  }

  lemma ReadsKeeps(w: World, w': World, e: ExId, c: ConnId)
    requires Inv(w) && Reads(w, w', e, c) && SelfOk(w', e) && WireOk(w', w'.conns[c])
    ensures Inv(w')
  {
    HeldConn(w, e);
    hide Inv, PoolOk, Consistent, StoreOk, HoldsOk, SelfOk, Evolves, ConnsOk, ConnOk, WireOk;
    View(w, e);
    ReadsEvolves(w, w', e, c);
    ReadsConns(w, w', e, c);
    PoolFrame(w, w');
    Assemble(w, w', e, {c});
  }

  lemma ReadHeadKeeps(w: World, e: ExId, throws: bool)
    requires Inv(w) && CanStep(w, e, HeadRead(throws))
    ensures Inv(ReadHead(w, e, throws))
  {
    var w', c := ReadHead(w, e, throws), w.exs[e].phase.conn;
    HeldConn(w, e);
    PendingHead(w, e);
    hide Inv, PoolOk, Consistent, StoreOk, HoldsOk, ExOk, SelfOk, ConnOk, WireOk, Pending;
    View(w, e);
    ReadHeadWire(w, e, throws);
    ReadHeadSelf(w, e, throws);
    ReadHeadReads(w, e, throws);
    hide Reads;
    ReadsKeeps(w, w', e, c);
  }

  lemma PendingHead(w: World, e: ExId)
    requires e in w.exs && (w.exs[e].phase.Writing? || w.exs[e].phase.Reading?)
    requires w.exs[e].phase.conn in w.conns && w.conns[w.exs[e].phase.conn].owner == HeldBy(e)
    requires ConnOk(w, w.exs[e].phase.conn)
    ensures Pending(w.conns[w.exs[e].phase.conn], e) && HeadSaid(w.conns[w.exs[e].phase.conn])
  {
  }

  /** What reading a head changes in the exchange. */
  lemma ReadHeadParts(w: World, e: ExId, throws: bool)
    requires CanStep(w, e, HeadRead(throws))
    ensures
      var w', c := ReadHead(w, e, throws), w.exs[e].phase.conn;
      var head := w.conns[c].wire[0];
      && w'.exs == w.exs[e := w.exs[e].(phase := Streaming(c, head.framing, head.keepAlive), thrown := throws,
                                        unheld := throws || Withholds(head), got := w.exs[e].got + [head.req])]
      && w' == w.(exs := w'.exs, conns := w'.conns, pool := w'.pool, inflight := w.inflight + {e})
  {
  }

  /** And in the connection. */
  lemma ReadHeadConn(w: World, e: ExId, throws: bool)
    requires CanStep(w, e, HeadRead(throws))
    ensures
      var w', c := ReadHead(w, e, throws), w.exs[e].phase.conn;
      && c in w'.conns && w'.conns == w.conns[c := w'.conns[c]]
      && w'.conns[c] == w.conns[c].(wire := w.conns[c].wire[1..], open := w'.conns[c].open,
                                    spoiled := w'.conns[c].spoiled)
      && ((w'.conns[c].open == w.conns[c].open && w'.conns[c].spoiled == w.conns[c].spoiled)
          || (!w'.conns[c].open && w'.conns[c].spoiled))
      && w'.pool.(stats := w.pool.stats, shut := w.pool.shut) == w.pool
  {
  }

  lemma ReadHeadSelf(w: World, e: ExId, throws: bool)
    requires CanStep(w, e, HeadRead(throws)) && SelfOk(w, e)
    requires w.conns[w.exs[e].phase.conn].wire[0].req == e
    ensures SelfOk(ReadHead(w, e, throws), e)
  {
    ReadHeadParts(w, e, throws);
    ReadHeadConn(w, e, throws);
    hide ReadHead;
  }

  lemma ReadHeadReads(w: World, e: ExId, throws: bool)
    requires CanStep(w, e, HeadRead(throws))
    ensures Reads(w, ReadHead(w, e, throws), e, w.exs[e].phase.conn)
  {
    ReadHeadParts(w, e, throws);
    ReadHeadConn(w, e, throws);
    hide ReadHead;
  }

  lemma ReadHeadWire(w: World, e: ExId, throws: bool)
    requires CanStep(w, e, HeadRead(throws))
    requires w.conns[w.exs[e].phase.conn].owner == HeldBy(e) && Pending(w.conns[w.exs[e].phase.conn], e)
    requires HeadSaid(w.conns[w.exs[e].phase.conn])
    ensures
      var w', c := ReadHead(w, e, throws), w.exs[e].phase.conn;
      && w.conns[c].wire[0].req == e
      && WireOk(w', w'.conns[c])
  {
    var w', conn := ReadHead(w, e, throws), w.conns[w.exs[e].phase.conn];
    ReadHeadParts(w, e, throws);
    ReadHeadConn(w, e, throws);
    hide ReadHead;
    var read := w'.conns[w.exs[e].phase.conn];
    assert read.(open := conn.open, spoiled := conn.spoiled) == conn.(wire := conn.wire[1..]);
    assert Draining(conn.(wire := conn.wire[1..]), e, conn.wire[0].framing);
  }

  lemma ReadBodyKeeps(w: World, e: ExId)
    requires Inv(w) && CanStep(w, e, BodyRead)
    ensures Inv(ReadBody(w, e))
  {
    var w', c := ReadBody(w, e), w.exs[e].phase.conn;
    HeldConn(w, e);
    DrainingBody(w, e);
    hide Inv, PoolOk, Consistent, StoreOk, HoldsOk, ExOk, SelfOk, ConnOk, WireOk, Draining;
    View(w, e);
    ReadBodyWire(w, e);
    ReadBodySelf(w, e);
    ReadsKeeps(w, w', e, c);
  }

  lemma DrainingBody(w: World, e: ExId)
    requires e in w.exs && w.exs[e].phase.Streaming?
    requires w.exs[e].phase.conn in w.conns && w.conns[w.exs[e].phase.conn].owner == HeldBy(e)
    requires ConnOk(w, w.exs[e].phase.conn)
    ensures Draining(w.conns[w.exs[e].phase.conn], e, w.exs[e].phase.left)
    ensures w.conns[w.exs[e].phase.conn].said == w.exs[e].phase.keepAlive
  {
  }

  lemma ReadBodyWire(w: World, e: ExId)
    requires CanStep(w, e, BodyRead)
    requires w.conns[w.exs[e].phase.conn].owner == HeldBy(e)
    requires Draining(w.conns[w.exs[e].phase.conn], e, w.exs[e].phase.left)
    requires w.conns[w.exs[e].phase.conn].said == w.exs[e].phase.keepAlive
    ensures
      var w', c := ReadBody(w, e), w.exs[e].phase.conn;
      && w.conns[c].wire[0].req == e
      && WireOk(w', w'.conns[c])
  {
    var w', c := ReadBody(w, e), w.exs[e].phase.conn;
    var wire := w.conns[c].wire;
    assert Draining(w'.conns[c], e, LessOne(w.exs[e].phase.left));
  }

  lemma ReadBodySelf(w: World, e: ExId)
    requires CanStep(w, e, BodyRead) && SelfOk(w, e)
    requires w.conns[w.exs[e].phase.conn].wire[0].req == e
    ensures SelfOk(ReadBody(w, e), e)
    ensures Reads(w, ReadBody(w, e), e, w.exs[e].phase.conn)
  {
  }

  /** Nobody has e's body, or nothing pulls it any more. */
  lemma MarkingKeeps(w: World, e: ExId, step: Step)
    requires Inv(w) && CanStep(w, e, step) && (step.GivenUp? || step.Sticks?)
    ensures Inv(Stepped(w, e, step))
  {
    var w' := Stepped(w, e, step);
    hide Inv, PoolOk, Consistent, StoreOk, HoldsOk, ExOk, SelfOk, ConnOk, WireOk;
    View(w, e);
    MarkingSelf(w, e, step);
    if w.exs[e].phase.Streaming? {
      HeldConn(w, e);
      MarkingReads(w, e, step);
      ReadsKeeps(w, w', e, w.exs[e].phase.conn);
    } else {
      PhaseKeeps(w, w', e);
    }
  }

  lemma MarkingSelf(w: World, e: ExId, step: Step)
    requires CanStep(w, e, step) && (step.GivenUp? || step.Sticks?) && SelfOk(w, e)
    ensures SelfOk(Stepped(w, e, step), e)
  {
  }

  lemma MarkingReads(w: World, e: ExId, step: Step)
    requires CanStep(w, e, step) && (step.GivenUp? || step.Sticks?) && w.exs[e].phase.Streaming?
    requires w.exs[e].phase.conn in w.conns && w.conns[w.exs[e].phase.conn].owner == HeldBy(e)
    requires ConnOk(w, w.exs[e].phase.conn)
    ensures
      var w', c := Stepped(w, e, step), w.exs[e].phase.conn;
      Reads(w, w', e, c) && WireOk(w', w'.conns[c])
  {
    hide Draining, QueueOk;
    assert w.conns == w.conns[w.exs[e].phase.conn := w.conns[w.exs[e].phase.conn]];
  }

  function Reading'(w: World, e: ExId): World
    requires e in w.exs && w.exs[e].phase.Writing?
  {
    SetPhase(w, e, Reading(w.exs[e].phase.conn, w.exs[e].phase.via))
  }

  lemma WriteDoneKeeps(w: World, e: ExId)
    requires Inv(w) && CanStep(w, e, WriteDone)
    ensures Inv(Reading'(w, e))
  {
    var w', c := Reading'(w, e), w.exs[e].phase.conn;
    HeldConn(w, e);
    PendingHead(w, e);
    hide Inv, PoolOk, Consistent, StoreOk, HoldsOk, ExOk, SelfOk, ConnOk, Pending;
    View(w, e);
    WriteDoneSelf(w, e);
    ReadsKeeps(w, w', e, c);
  }

  lemma WriteDoneSelf(w: World, e: ExId)
    requires CanStep(w, e, WriteDone) && SelfOk(w, e)
    ensures SelfOk(Reading'(w, e), e)
    ensures Reads(w, Reading'(w, e), e, w.exs[e].phase.conn)
  {
  }

  // ---------------------------------------------------------------- every step of an exchange

  lemma PlainStepKeeps(w: World, e: ExId, step: Step)
    requires Inv(w) && CanStep(w, e, step)
    requires step.H2Failed? || step.H2Answered? || step.H2Ended? || step.OpenFailed? || step.Untrack?
    ensures Inv(Stepped(w, e, step))
  {
    var w' := Stepped(w, e, step);
    hide Inv, PoolOk, Consistent, StoreOk, SelfOk, HoldsOk, ExOk;
    View(w, e);
    PlainStepSelf(w, e, step);
    PlainStepShape(w, e, step);
    PhaseKeeps(w, w', e);
  }

  lemma PlainStepSelf(w: World, e: ExId, step: Step)
    requires CanStep(w, e, step) && SelfOk(w, e)
    requires step.H2Failed? || step.H2Answered? || step.H2Ended? || step.OpenFailed? || step.Untrack?
    ensures SelfOk(Stepped(w, e, step), e)
  {
    hide Begin, FromPool, ReadHead, ReadBody, GiveBack, Drop, Abandon, Connected, Dial, DispatchH2, Shelves.Discard;
  }

  lemma PlainStepShape(w: World, e: ExId, step: Step)
    requires CanStep(w, e, step)
    requires step.H2Failed? || step.H2Answered? || step.H2Ended? || step.OpenFailed? || step.Untrack?
    ensures
      var w' := Stepped(w, e, step);
      && w' == w.(exs := w'.exs, inflight := w'.inflight, pool := w'.pool)
      && e in w'.exs && w'.exs == w.exs[e := w.exs[e].(phase := w'.exs[e].phase, thrown := w'.exs[e].thrown,
                                                                   unheld := w'.exs[e].unheld)]
      && w'.inflight - {e} == w.inflight - {e}
      && w'.pool.(stats := w.pool.stats, shut := w.pool.shut) == w.pool
      && Holding(w.exs[e].phase).None?
  {
    if step.OpenFailed? {
      OpenFailedShape(w, e);
      hide Stepped;
    } else {
      hide Begin, FromPool, ReadHead, ReadBody, GiveBack, Drop, Abandon, Connected, Dial, DispatchH2;
    }
  }

  lemma OpenFailedShape(w: World, e: ExId)
    requires CanStep(w, e, OpenFailed)
    ensures
      var w' := Stepped(w, e, OpenFailed);
      && w' == SetPhase(w, e, Failed).(pool := w'.pool)
      && w'.pool.(stats := w.pool.stats, shut := w.pool.shut) == w.pool
  {
  }

  lemma BrokenKeeps(w: World, e: ExId)
    requires Inv(w) && CanStep(w, e, Broken)
    ensures Inv(SetPhase(Abandon(w, w.exs[e].phase.conn, w.exs[e].phase.via), e, Failed))
  {
    var c := w.exs[e].phase.conn;
    var w' := SetPhase(Abandon(w, c, w.exs[e].phase.via), e, Failed);
    HeldConn(w, e);
    BrokenOpen(w, e);
    hide Inv, PoolOk, Consistent, StoreOk, SelfOk, HoldsOk, ExOk, ConnOk, LetsGo;
    View(w, e);
    BrokenSelf(w, e);
    BrokenLetsGo(w, e);
    LetsGoKeeps(w, w', e, c);
  }

  lemma BrokenOpen(w: World, e: ExId)
    requires Inv(w) && CanStep(w, e, Broken)
    ensures w.conns[w.exs[e].phase.conn].open || !w.exs[e].phase.via.Resent?
  {
    assert HoldsOk(w, e);
  }

  lemma BrokenSelf(w: World, e: ExId)
    requires CanStep(w, e, Broken) && SelfOk(w, e)
    requires w.conns[w.exs[e].phase.conn].open || !w.exs[e].phase.via.Resent?
    ensures SelfOk(SetPhase(Abandon(w, w.exs[e].phase.conn, w.exs[e].phase.via), e, Failed), e)
  {
    hide Shelves.Discard;
  }

  lemma BrokenLetsGo(w: World, e: ExId)
    requires CanStep(w, e, Broken) && HoldsOk(w, e)
    requires w.conns[w.exs[e].phase.conn].open || !w.exs[e].phase.via.Resent?
    ensures
      var w' := SetPhase(Abandon(w, w.exs[e].phase.conn, w.exs[e].phase.via), e, Failed);
      LetsGo(w, w', e, w.exs[e].phase.conn)
  {
  }

  lemma NeverSawKeeps(w: World, e: ExId)
    requires Inv(w) && CanStep(w, e, NeverSaw)
    ensures Inv(Stepped(w, e, NeverSaw))
  {
    var w', c := Stepped(w, e, NeverSaw), w.exs[e].phase.conn;
    HeldConn(w, e);
    hide Inv, PoolOk, Consistent, StoreOk, SelfOk, HoldsOk, ExOk, ConnOk, LetsGo;
    View(w, e);
    NeverSawSelf(w, e);
    LetsGoKeeps(w, w', e, c);
  }

  lemma NeverSawSelf(w: World, e: ExId)
    requires CanStep(w, e, NeverSaw) && SelfOk(w, e)
    ensures SelfOk(Stepped(w, e, NeverSaw), e)
    ensures LetsGo(w, Stepped(w, e, NeverSaw), e, w.exs[e].phase.conn)
  {
  }

  lemma BodyBrokeKeeps(w: World, e: ExId)
    requires Inv(w) && CanStep(w, e, BodyBroke)
    ensures Inv(SetPhase(Drop(w, w.exs[e].phase.conn), e, Settled))
  {
    var c := w.exs[e].phase.conn;
    var w' := SetPhase(Drop(w, c), e, Settled);
    HeldConn(w, e);
    hide Inv, PoolOk, Consistent, StoreOk, HoldsOk, ExOk, ConnOk, SelfOk;
    View(w, e);
    SettledSelf(w, w', e);
    LetsGoKeeps(w, w', e, c);
  }

  lemma StartKeeps(w: World, e: ExId, key: Key, room: bool, expired: nat)
    requires Inv(w) && e !in w.exs
    ensures Inv(Begin(w, e, key, room, expired))
  {
    var w1 := w.(exs := w.exs[e := Unstarted(key)]);
    hide Inv;
    NewKeeps(w, e, key);
    Untracked(w, e);
    if Current(w.registry, key).Some? && room {
      DispatchKeeps(w1, e, Current(w.registry, key).value, true);
    } else {
      FromPoolKeeps(w1, e, expired);
    }
  }

  lemma Untracked(w: World, e: ExId)
    requires Inv(w) && e !in w.exs
    ensures e !in w.inflight
  {
  }

  lemma RefusedKeeps(w: World, e: ExId, expired: nat)
    requires Inv(w) && CanStep(w, e, H2Refused(expired))
    ensures Inv(Stepped(w, e, H2Refused(expired)))
  {
    var w1 := w.(exs := w.exs[e := Disowned(w.exs[e]).(phase := Failed)]);
    hide Inv, PoolOk, Consistent, StoreOk;
    View(w, e);
    assert SelfOk(w1, e) && Unattached(w1, e);
    RefusedAttempt(w, e);
    hide SelfOk, HoldsOk, ExOk, Unattached;
    PhaseKeeps(w, w1, e);
    FromPoolKeeps(w1, e, expired);
  }

  lemma RefusedAttempt(w: World, e: ExId)
    requires Inv(w) && e in w.exs && w.exs[e].phase.H2Wait?
    ensures !w.exs[e].attempt.OnH1?
  {
    assert ExOk(w.exs[e], e);
  }

  lemma OpenedKeeps(w: World, e: ExId, id: nat, pick: Option<Proto>)
    requires Inv(w) && CanStep(w, e, Opened(id, pick))
    ensures Inv(Stepped(w, e, Opened(id, pick)))
  {
    hide Inv;
    View(w, e);
    if pick == Some(Http2) {
      AddKeeps(w, w.exs[e].key, id);
      DispatchKeeps(w.(registry := Registry.Add(w.registry, w.exs[e].key, id)), e, id, false);
    } else {
      ConnectedKeeps(w, e, id, Fresh, pick);
    }
  }

  lemma RedialedKeeps(w: World, e: ExId, c: ConnId, pick: Option<Proto>)
    requires Inv(w) && CanStep(w, e, Redialed(c, pick))
    ensures Inv(Stepped(w, e, Redialed(c, pick)))
  {
    hide Inv;
    OffersDiffer(w.tlsAlpn, w.http2);
    ConnectedKeeps(w, e, c, Resent(w.exs[e].phase.spent), pick);
  }

  lemma RedialKeeps(w: World, e: ExId, expired: nat)
    requires Inv(w) && CanStep(w, e, Redial(expired))
    ensures Inv(Dial(w, e, Redialing(w.exs[e].phase.spent), expired))
  {
    hide Inv;
    View(w, e);
    DialKeeps(w, e, Redialing(w.exs[e].phase.spent), expired);
  }

  lemma StepKeeps(w: World, e: ExId, step: Step)
    requires Inv(w) && CanStep(w, e, step)
    ensures Inv(Stepped(w, e, step))
  {
    hide Inv;
    match step
    case Start(key, room, expired) => StartKeeps(w, e, key, room, expired);
    case H2Refused(expired) => RefusedKeeps(w, e, expired);
    case Opened(id, pick) => OpenedKeeps(w, e, id, pick);
    case WriteDone => WriteDoneKeeps(w, e);
    case Broken => BrokenKeeps(w, e);
    case NeverSaw => NeverSawKeeps(w, e);
    case Redial(expired) => RedialKeeps(w, e, expired);
    case Redialed(c, pick) => RedialedKeeps(w, e, c, pick);
    case HeadRead(throws) => ReadHeadKeeps(w, e, throws);
    case BodyRead => ReadBodyKeeps(w, e);
    case BodyDone => GiveBackKeeps(w, e, w.exs[e].phase.left.Determinate? && w.exs[e].phase.keepAlive);
    case BodyCancelled => GiveBackKeeps(w, e, false);
    case BodyBroke => BodyBrokeKeeps(w, e);
    case GivenUp => MarkingKeeps(w, e, step);
    case Sticks => MarkingKeeps(w, e, step);
    case _ => PlainStepKeeps(w, e, step);
  }

  // ---------------------------------------------------------------- every step of a peer

  /** Exchanges keep their phase, connections their owner. */
  ghost predicate SamePlaces(w: World, w': World) {
    && w' == w.(exs := w'.exs, conns := w'.conns)
    && w'.exs.Keys == w.exs.Keys && w'.conns.Keys == w.conns.Keys
    && (forall e <- w.exs :: w'.exs[e] == w.exs[e] || w'.exs[e] == Processed(w.exs[e]))
    && (forall c <- w.conns ::
          w'.conns[c] == w.conns[c].(queue := w'.conns[c].queue, answer := w'.conns[c].answer,
                                     wire := w'.conns[c].wire, said := w'.conns[c].said, hungUp := w'.conns[c].hungUp))
  }

  lemma SamePlacesKeeps(w: World, w': World)
    requires Inv(w) && SamePlaces(w, w')
    requires forall c <- w'.conns :: WireOk(w', w'.conns[c]) && QueueOk(w', c, w'.conns[c])
    requires forall e <- w'.exs :: ExOk(w'.exs[e], e)
    ensures Inv(w')
  {
    hide Consistent, StoreOk, ExOk, WireOk, QueueOk;
    forall c <- w'.conns ensures ConnOk(w', c) {
      assert ConnOk(w, c);
    }
    forall e <- w'.exs ensures HoldsOk(w', e) {
      assert HoldsOk(w, e);
    }
    assert PoolOk(w');
  }

  lemma WireFrame(w: World, w': World, conn: Conn)
    requires WireOk(w, conn)
    requires conn.owner.HeldBy? ==>
      var e := conn.owner.ex;
      e in w'.exs && w'.exs[e].phase == w.exs[e].phase && w'.exs[e].live == w.exs[e].live
    ensures WireOk(w', conn)
  {
    hide Pending, Draining, Quiet;
  }

  lemma WireServed(w: World, w': World, conn: Conn, event: Event)
    requires WireOk(w, conn) && CanServe(conn, event) && |conn.queue| <= 1
    requires conn.owner.HeldBy? ==>
      var e := conn.owner.ex;
      && e in w'.exs && w'.exs[e].phase == w.exs[e].phase
      && w'.exs[e].live == (w.exs[e].live || (event.Takes? && conn.queue[0] == e))
    ensures WireOk(w', Serve(conn, event))
  {
    match conn.owner
    case Idle => ServeQuiet(conn, event);
    case HeldBy(e) =>
      match w.exs[e].phase {
        case Writing(_, _) => ServePending(conn, e, event);
        case Reading(_, _) => ServePending(conn, e, event);
        case Streaming(_, left, _) => ServeDraining(conn, e, left, event);
        case _ =>
      }
    case _ =>
  }

  /** Processing a request changes nothing for the connection some other exchange holds. */
  lemma ServedElsewhere(w: World, c: ConnId, event: Event, d: ConnId)
    requires Inv(w) && Enabled(w, On(c, event)) && d in w.conns && d != c
    requires event.Takes? && w.conns[d].owner == HeldBy(w.conns[c].queue[0])
    ensures var phase := w.exs[w.conns[c].queue[0]].phase; !phase.Writing? && !phase.Reading?
  {
    var e := w.conns[c].queue[0];
    assert ConnOk(w, c) && ConnOk(w, d) && ExOk(w.exs[e], e);
    hide Inv, PoolOk, Consistent, StoreOk, HoldsOk, WireOk;
  }

  lemma ServedWire(w: World, c: ConnId, event: Event, d: ConnId)
    requires Inv(w) && Enabled(w, On(c, event)) && d in w.conns
    ensures WireOk(Served(w, c, event), Served(w, c, event).conns[d])
  {
    var w' := Served(w, c, event);
    assert WireOk(w, w.conns[d]) && |w.conns[d].queue| <= 1 by {
      assert ConnOk(w, d);
    }
    if d == c {
      hide Inv, WireOk, Pending, Draining;
      WireServed(w, w', w.conns[c], event);
    } else if event.Takes? && w.conns[d].owner == HeldBy(w.conns[c].queue[0]) {
      ServedElsewhere(w, c, event, d);
      hide Inv, Pending, Draining, Quiet;
    } else {
      hide Inv, WireOk;
      WireFrame(w, w', w.conns[d]);
    }
  }

  /** The connection served: one request fewer is waiting on it, or the same ones. */
  lemma ServedQueueHere(w: World, c: ConnId, event: Event)
    requires Enabled(w, On(c, event)) && QueueOk(w, c, w.conns[c])
    ensures QueueOk(Served(w, c, event), c, Served(w, c, event).conns[c])
  {
  }

  lemma ServedQueueThere(w: World, c: ConnId, event: Event, d: ConnId)
    requires Enabled(w, On(c, event)) && d in w.conns && d != c
    requires QueueOk(w, c, w.conns[c]) && QueueOk(w, d, w.conns[d])
    ensures QueueOk(Served(w, c, event), d, Served(w, c, event).conns[d])
  {
    hide Serve;
  }

  lemma ServedQueue(w: World, c: ConnId, event: Event, d: ConnId)
    requires Inv(w) && Enabled(w, On(c, event)) && d in w.conns
    ensures QueueOk(Served(w, c, event), d, Served(w, c, event).conns[d])
  {
    assert ConnOk(w, d) && ConnOk(w, c);
    hide Inv, WireOk, QueueOk, Served;
    if d == c {
      ServedQueueHere(w, c, event);
    } else {
      ServedQueueThere(w, c, event, d);
    }
  }

  lemma ServedExs(w: World, c: ConnId, event: Event, e: ExId)
    requires Inv(w) && Enabled(w, On(c, event)) && e in w.exs
    ensures ExOk(Served(w, c, event).exs[e], e)
  {
    assert ConnOk(w, c) && ExOk(w.exs[e], e);
    hide Inv, PoolOk, Consistent, StoreOk, HoldsOk, WireOk;
  }

  lemma ServedKeeps(w: World, c: ConnId, event: Event)
    requires Inv(w) && Enabled(w, On(c, event))
    ensures Inv(Served(w, c, event))
  {
    var w' := Served(w, c, event);
    hide Inv, WireOk, QueueOk, ExOk;
    forall d <- w'.conns ensures WireOk(w', w'.conns[d]) && QueueOk(w', d, w'.conns[d]) {
      ServedWire(w, c, event, d);
      ServedQueue(w, c, event, d);
    }
    forall e <- w'.exs ensures ExOk(w'.exs[e], e) {
      ServedExs(w, c, event, e);
    }
    ServedPlaces(w, c, event);
    hide SamePlaces, Served;
    SamePlacesKeeps(w, w');
  }

  lemma ServedPlaces(w: World, c: ConnId, event: Event)
    requires Enabled(w, On(c, event))
    ensures SamePlaces(w, Served(w, c, event))
  {
  }

  lemma TakesH2Conns(w: World, e: ExId, d: ConnId)
    requires Inv(w) && Enabled(w, TakesH2(e)) && d in w.conns
    ensures
      var w' := w.(exs := w.exs[e := Processed(w.exs[e])]);
      WireOk(w', w'.conns[d]) && QueueOk(w', d, w'.conns[d])
  {
    assert ConnOk(w, d) && ExOk(w.exs[e], e);
    hide Inv, Pending, Draining, Quiet, OpenAsOwned, IdleIn;
  }

  lemma TakesH2Keeps(w: World, e: ExId)
    requires Inv(w) && Enabled(w, TakesH2(e))
    ensures Inv(w.(exs := w.exs[e := Processed(w.exs[e])]))
  {
    var w' := w.(exs := w.exs[e := Processed(w.exs[e])]);
    assert forall o <- w.exs :: ExOk(w.exs[o], o);
    hide Inv, WireOk, QueueOk;
    forall d <- w'.conns ensures WireOk(w', w'.conns[d]) && QueueOk(w', d, w'.conns[d]) {
      TakesH2Conns(w, e, d);
    }
    assert ExOk(w'.exs[e], e);
    hide ExOk;
    assert forall o <- w'.exs :: o != e ==> ExOk(w'.exs[o], o);
    assert SamePlaces(w, w');
    hide SamePlaces;
    SamePlacesKeeps(w, w');
  }

  lemma RegistryStays(r: Register, h: H2Id)
    requires Consistent(r) && h in r.known
    ensures Consistent(GoAway(r, h)) && Consistent(Die(r, h)) && Consistent(Registry.CloseAll(r))
  {
  }

  lemma CapturedKeeps(w: World, key: Key, t: TicketId)
    requires Inv(w) && t !in w.store.earned
    ensures Inv(Captured(w, key, t))
  {
    if !w.strict && !w.closed {
      assert StoreOk(w.store, w.closed, w.strict);
      Tickets.PutKeeps(w.store, key, t);
      hide Inv, Isolated, SingleUse;
      StoreKeeps(w, Tickets.Put(w.store, key, t));
    }
  }

  lemma ClosingConn(w: World, c: ConnId)
    requires Inv(w) && c in w.conns
    ensures ConnOk(Closing(w), c)
  {
    assert ConnOk(w, c);
    hide Inv, Pending, Draining, Quiet, PoolOk, Consistent, StoreOk, HoldsOk, ExOk;
  }

  lemma ClosingHolds(w: World, e: ExId)
    requires Inv(w) && e in w.exs
    ensures HoldsOk(Closing(w), e)
  {
    assert HoldsOk(w, e);
    hide Inv, PoolOk, Consistent, StoreOk, ConnOk, ExOk;
  }

  lemma ClosingPool(w: World)
    requires PoolOk(w)
    ensures PoolOk(Closing(w))
  {
    hide Contents;
    ContentsPut<ConnId>(map[], "", []);
  }

  lemma ClosingStore(store: Store, closed: bool, strict: bool)
    requires StoreOk(store, closed, strict)
    ensures StoreOk(Tickets.Clear(store), true, strict)
  {
  }

  lemma ClosingRegistry(r: Register)
    requires Consistent(r)
    ensures Consistent(Registry.CloseAll(r))
  {
  }

  lemma ClosingKeeps(w: World)
    requires Inv(w)
    ensures Inv(Closing(w))
  {
    var w' := Closing(w);
    assert PoolOk(w) && Consistent(w.registry) && StoreOk(w.store, w.closed, w.strict)
        && w.inflight <= w.exs.Keys && forall e <- w.exs :: ExOk(w.exs[e], e);
    forall c <- w'.conns ensures ConnOk(w', c) {
      ClosingConn(w, c);
    }
    forall e <- w'.exs ensures HoldsOk(w', e) {
      ClosingHolds(w, e);
    }
    hide PoolOk, Consistent, StoreOk, ConnOk, HoldsOk, ExOk;
    ClosingPool(w);
    ClosingStore(w.store, w.closed, w.strict);
    ClosingRegistry(w.registry);
  }

  lemma NextKeeps(w: World, a: Action)
    requires Inv(w) && Enabled(w, a)
    ensures Inv(Next(w, a))
  {
    hide Inv;
    match a
    case By(e, step) => StepKeeps(w, e, step);
    case On(c, event) => ServedKeeps(w, c, event);
    case TakesH2(e) => TakesH2Keeps(w, e);
    case GoesAway(h) => RegistryMoves(w, h);
    case Dies(h) => RegistryMoves(w, h);
    case TicketOnH1(c, t) => CapturedKeeps(w, w.conns[c].key, t);
    case TicketOnH2(h, t) => CapturedKeeps(w, w.registry.known[h].key, t);
    case Close => ClosingKeeps(w);
  }

  lemma RegistryMoves(w: World, h: H2Id)
    requires Inv(w) && h in w.registry.known
    ensures Inv(w.(registry := GoAway(w.registry, h))) && Inv(w.(registry := Die(w.registry, h)))
  {
    assert Consistent(w.registry);
    RegistryStays(w.registry, h);
    hide Inv, Consistent;
    RegistryKeeps(w, GoAway(w.registry, h));
    RegistryKeeps(w, Die(w.registry, h));
  }

  /** The invariant holds in every reachable state: any actions, in any order the program and its
      peers allow. */
  lemma {:induction false} RunKeeps(w: World, actions: seq<Action>, end: World)
    requires Inv(w) && Run(w, actions, end)
    ensures Inv(end)
    decreases |actions|
  {
    if actions != [] {
      NextKeeps(w, actions[0]);
      RunKeeps(Next(w, actions[0]), actions[1..], end);
    }
  }

  lemma InitOk(strict: bool, tlsAlpn: Option<Offer>, http2: bool, maxPerKey: nat, maxTotal: nat)
    ensures Inv(Init(strict, tlsAlpn, http2, maxPerKey, maxTotal))
  {
    hide Contents;
    ContentsPut<ConnId>(map[], "", []);
  }

  /** A client nothing has happened to. */
  ghost predicate Untouched(w: World) {
    w == Init(w.strict, w.tlsAlpn, w.http2, w.pool.maxPerKey, w.pool.maxTotal)
  }

  /** A state some run of a new client reaches. */
  ghost predicate Reachable(w: World) {
    exists start, actions :: Untouched(start) && Run(start, actions, w)
  }

  lemma ReachableInv(w: World)
    requires Reachable(w)
    ensures Inv(w)
  {
    var start, actions :| Untouched(start) && Run(start, actions, w);
    InitOk(start.strict, start.tlsAlpn, start.http2, start.pool.maxPerKey, start.pool.maxTotal);
    RunKeeps(start, actions, w);
  }
}
