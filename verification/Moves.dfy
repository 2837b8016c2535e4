/** What single steps of an exchange do, told from the fields of the client before and after. */
module Moves {
  import opened Wrappers
  import opened Shelves
  import opened Registry
  import opened Tickets
  import opened Negotiation
  import opened Protocol
  import opened Safety
  import opened Steps
  import opened Leaks
  import opened Sharing

  // ---------------------------------------------------------------- where a request goes

  /** The idle connections of a key, oldest first. */
  function IdleOf(w: World, key: Key): seq<ConnId> {
    if key in w.pool.lists then w.pool.lists[key] else []
  }

  /** The connection of the key speaks HTTP/2, lives, and has not been told to go away. */
  predicate HasShared(w: World, key: Key) {
    && key in w.registry.keyed && w.registry.keyed[key] in w.registry.known
    && w.registry.known[w.registry.keyed[key]].alive && !w.registry.known[w.registry.keyed[key]].goingAway
  }

  ghost predicate OtherKeysKeep(w: World, w': World, key: Key) {
    forall k :: k != key ==> IdleOf(w', k) == IdleOf(w, k)
  }

  /** e, which had written `writes` copies, has been turned to the pool: it has failed if that is closed, or
      else it writes on the newest idle connection of its key, or dials. */
  ghost predicate TurnedToPool(w: World, w': World, e: ExId, key: Key, writes: nat) {
    && e in w'.exs && w'.registry == w.registry && OtherKeysKeep(w, w', key)
    && var x, list := w'.exs[e], IdleOf(w, key);
    if w.pool.closed then x.phase == Failed && x.writes == writes && w'.pool == w.pool && w'.conns == w.conns
    else if list != [] then
      var c := list[|list| - 1];
      && c in w.conns && c in w'.conns
      && x.phase == Writing(c, Pooled) && x.attempt == OnH1(c) && !x.live && x.writes == writes + 1
      && IdleOf(w', key) == list[..|list| - 1]
      && w'.conns == w.conns[c := w'.conns[c]]
      && w'.conns[c] == w.conns[c].(owner := HeldBy(e), queue := w.conns[c].queue + [e])
    else x.phase == Opening && x.writes == writes && IdleOf(w', key) == [] && w'.conns == w.conns
  }

  lemma TurnsToPool(w: World, e: ExId, expired: nat)
    requires Inv(w) && e in w.exs && w.exs[e].phase.Failed?
    ensures TurnedToPool(w, FromPool(w, e, expired), e, w.exs[e].key, w.exs[e].writes)
  {
    var taken := Shelves.Take(w.pool, w.exs[e].key).1;
    if taken.Hit? {
      TakenIsIdle(w, w.exs[e].key, taken.conn);
      HitTurns(w, e, expired);
    } else {
      MissTurns(w, e, expired);
    }
    hide Inv, FromPool, TurnedToPool;
  }

  lemma HitTurns(w: World, e: ExId, expired: nat)
    requires e in w.exs && Shelves.Take(w.pool, w.exs[e].key).1.Hit?
    requires Shelves.Take(w.pool, w.exs[e].key).1.conn in w.conns
    ensures TurnedToPool(w, FromPool(w, e, expired), e, w.exs[e].key, w.exs[e].writes)
  {
    hide Dial;
  }

  lemma MissTurns(w: World, e: ExId, expired: nat)
    requires e in w.exs && !Shelves.Take(w.pool, w.exs[e].key).1.Hit?
    ensures TurnedToPool(w, FromPool(w, e, expired), e, w.exs[e].key, w.exs[e].writes)
  {
    DialSame(w.(pool := Shelves.Take(w.pool, w.exs[e].key).0), e, Opening, expired);
    hide Tickets.Take, Sent, Carrying;
  }

  /** A new request goes to the shared HTTP/2 connection of its key if that has room, and otherwise where
      the pool sends it. */
  lemma StartGoes(w: World, e: ExId, key: Key, room: bool, expired: nat)
    requires Reachable(w) && e !in w.exs
    ensures
      var a := By(e, Start(key, room, expired));
      && Enabled(w, a)
      && var w' := Next(w, a);
      if room && HasShared(w, key) then
        && e in w'.exs && w'.exs[e].phase == H2Wait(w.registry.keyed[key], true)
        && w'.exs[e].attempt == OnH2 && w'.exs[e].writes == 1
        && w' == w.(exs := w'.exs)
      else TurnedToPool(w, w', e, key, 0)
  {
    hide Reachable;
    ReachableInv(w);
    var w1 := w.(exs := w.exs[e := Unstarted(key)]);
    if !(room && HasShared(w, key)) {
      NewKeeps(w, e, key);
      TurnsToPool(w1, e, expired);
      StartTurns(w, w1, e, key, room, expired);
    }
    hide Inv, FromPool;
  }

  lemma StartTurns(w: World, w1: World, e: ExId, key: Key, room: bool, expired: nat)
    requires e !in w.exs && w1 == w.(exs := w.exs[e := Unstarted(key)]) && !(room && HasShared(w, key))
    requires TurnedToPool(w1, FromPool(w1, e, expired), e, key, 0)
    ensures TurnedToPool(w, Next(w, By(e, Start(key, room, expired))), e, key, 0)
  {
    assert Next(w, By(e, Start(key, room, expired))) == FromPool(w1, e, expired);
    hide FromPool, Next;
    assert forall k :: IdleOf(w1, k) == IdleOf(w, k);
  }

  /** A refused stream is a request written and not processed; it goes where the pool sends it. */
  lemma RefusedGoes(w: World, e: ExId, expired: nat)
    requires Reachable(w) && CanStep(w, e, H2Refused(expired))
    ensures TurnedToPool(w, Next(w, By(e, H2Refused(expired))), e, w.exs[e].key, w.exs[e].writes)
    ensures Next(w, By(e, H2Refused(expired))).exs[e].proofs == w.exs[e].proofs + 1
  {
    hide Reachable;
    ReachableInv(w);
    var w1 := w.(exs := w.exs[e := Disowned(w.exs[e]).(phase := Failed)]);
    RefusedInv(w, e, expired);
    TurnsToPool(w1, e, expired);
    StepCounts(w, e, H2Refused(expired));
    RefusedTurns(w, w1, e, expired);
    hide Inv, FromPool, TurnedToPool;
  }

  lemma RefusedTurns(w: World, w1: World, e: ExId, expired: nat)
    requires CanStep(w, e, H2Refused(expired)) && w1 == w.(exs := w.exs[e := Disowned(w.exs[e]).(phase := Failed)])
    requires TurnedToPool(w1, FromPool(w1, e, expired), e, w.exs[e].key, w.exs[e].writes)
    ensures TurnedToPool(w, Next(w, By(e, H2Refused(expired))), e, w.exs[e].key, w.exs[e].writes)
  {
    assert Next(w, By(e, H2Refused(expired))) == FromPool(w1, e, expired);
    hide FromPool, Next;
    assert forall k :: IdleOf(w1, k) == IdleOf(w, k);
  }

  lemma RefusedInv(w: World, e: ExId, expired: nat)
    requires Inv(w) && CanStep(w, e, H2Refused(expired))
    ensures Inv(w.(exs := w.exs[e := Disowned(w.exs[e]).(phase := Failed)]))
  {
    var w1 := w.(exs := w.exs[e := Disowned(w.exs[e]).(phase := Failed)]);
    hide Inv, PoolOk, StoreOk, Consistent;
    View(w, e);
    assert SelfOk(w1, e);
    RefusedAttempt(w, e);
    hide SelfOk, HoldsOk, ExOk;
    PhaseKeeps(w, w1, e);
  }

  /** A connection that turns out to speak HTTP/2 is the one of its key from then on, and carries the
      request. */
  lemma OpenedGoes(w: World, e: ExId, id: nat)
    requires CanStep(w, e, Opened(id, Some(Http2)))
    ensures
      var w', key := Next(w, By(e, Opened(id, Some(Http2)))), w.exs[e].key;
      && e in w'.exs && w'.exs[e].writes == w.exs[e].writes + 1 && w'.exs[e].phase == H2Wait(id, false)
      && w'.pool == w.pool && w'.conns == w.conns
      && key in w'.registry.keyed && w'.registry.keyed[key] == id && id in w'.registry.all
      && id in w'.registry.known && w'.registry.known[id].key == key && HasShared(w', key)
      && (forall k <- w.registry.keyed :: k != key ==>
            k in w'.registry.keyed && w'.registry.keyed[k] == w.registry.keyed[k])
  {
    hide FromPool, GiveBack, ReadHead, ReadBody, Begin, Dial, Connected;
  }

  /** One that does not, be it the first of its request or the one for a re-send, is held by the request,
      which is the only one on it. */
  lemma ConnectedGoes(w: World, e: ExId, step: Step)
    requires CanStep(w, e, step) && Connects(step).Some?
    ensures
      var w', c := Next(w, By(e, step)), Connects(step).value;
      && e in w'.exs && w'.exs[e].writes == w.exs[e].writes + 1 && w'.exs[e].attempt == OnH1(c)
      && w'.exs[e].phase.Writing? && w'.exs[e].phase.conn == c
      && (step.Opened? ==> w'.exs[e].phase.via == Fresh)
      && (step.Redialed? ==> w'.exs[e].phase.via == Resent(w.exs[e].phase.spent))
      && w'.pool == w.pool && w'.registry == w.registry && c !in w.conns
      && w'.conns == w.conns[c := w'.conns[c]] && w'.conns[c].key == w.exs[e].key
      && w'.conns[c].owner == HeldBy(e) && w'.conns[c].open && w'.conns[c].queue == [e]
      && w'.conns[c].wire == [] && w'.conns[c].picked == step.pick
  {
    hide FromPool, GiveBack, ReadHead, ReadBody, Begin, Dial, DispatchH2, Registry.Add;
  }

  /** The connection registered last for a key takes the next request of that key that it has room for,
      after whatever has happened to other connections in between. */
  lemma NewestIsUsed(w: World, e: ExId, h: H2Id, actions: seq<Action>, end: World, o: ExId, expired: nat)
    requires Reachable(w) && CanStep(w, e, Opened(h, Some(Http2)))
    requires
      var w1 := Next(w, By(e, Opened(h, Some(Http2))));
      RunUndisturbed(w1, actions, end, w.exs[e].key, h)
    requires o !in end.exs
    ensures
      var a := By(o, Start(w.exs[e].key, true, expired));
      && Enabled(end, a) && o in Next(end, a).exs && Next(end, a).exs[o].phase == H2Wait(h, true)
  {
    hide Reachable, Inv;
    ReachableInv(w);
    var key, w1 := w.exs[e].key, Next(w, By(e, Opened(h, Some(Http2))));
    NextKeeps(w, By(e, Opened(h, Some(Http2))));
    OpenedGoes(w, e, h);
    RegistryOf(w1);
    hide Next, RunUndisturbed;
    SuccessorStays(w1, actions, end, key, h);
    UndisturbedKeeps(w1, actions, end, key, h);
    RegistryOf(end);
    SharedTakes(end, o, key, expired);
  }

  lemma RegistryOf(w: World)
    requires Inv(w)
    ensures Consistent(w.registry)
  {
  }

  lemma SharedTakes(w: World, o: ExId, key: Key, expired: nat)
    requires o !in w.exs && HasShared(w, key)
    ensures
      var a := By(o, Start(key, true, expired));
      Enabled(w, a) && o in Next(w, a).exs && Next(w, a).exs[o].phase == H2Wait(w.registry.keyed[key], true)
  {
    hide FromPool;
  }

  lemma {:induction false} UndisturbedKeeps(w: World, actions: seq<Action>, end: World, key: Key, h: H2Id)
    requires Inv(w) && RunUndisturbed(w, actions, end, key, h)
    ensures Inv(end)
    decreases |actions|
  {
    if actions != [] {
      NextKeeps(w, actions[0]);
      hide Inv, Next, Disturbs;
      UndisturbedKeeps(Next(w, actions[0]), actions[1..], end, key, h);
    }
  }

  // ---------------------------------------------------------------- tickets of a dial

  /** A dial for `key` consumes the freshest ticket that has not expired, and is offered it; those passed
      over are dropped.  Under require-staple nothing is looked at. */
  ghost predicate OffersTicket(w: World, w': World, key: Key, expired: nat) {
    var list := if key in w.store.held then w.store.held[key] else [];
    && (forall k :: k != key ==> (k in w'.store.held <==> k in w.store.held))
    && (forall k <- w.store.held :: k != key ==> w'.store.held[k] == w.store.held[k])
    && if w.strict then w'.store == w.store
       else if |list| <= expired then key !in w'.store.held && w'.store.offered == w.store.offered
       else
         var n := |list| - 1 - expired;
         && w'.store.offered == w.store.offered + [(list[n], key)]
         && (if n == 0 then key !in w'.store.held else key in w'.store.held && w'.store.held[key] == list[..n])
  }

  lemma DialOffers(w: World, e: ExId, phase: Phase, expired: nat)
    requires e in w.exs
    ensures OffersTicket(w, Dial(w, e, phase, expired), w.exs[e].key, expired)
  {
  }

  /** A request that comes to dial, or dials again, does so with that ticket. */
  lemma DiallingOffers(w: World, e: ExId, step: Step)
    requires CanStep(w, e, step) && (step.Start? || step.H2Refused? || step.Redial?)
    ensures
      var w' := Next(w, By(e, step));
      e in w'.exs && (w'.exs[e].phase.Opening? || w'.exs[e].phase.Redialing?) ==>
        OffersTicket(w, w', w'.exs[e].key, step.expired)
  {
    if step.Redial? {
      RedialOffers(w, e, step.expired);
    } else if step.Start? {
      StartOffers(w, e, step);
    } else {
      RefusedOffers(w, e, step);
    }
    hide Next, OffersTicket;
  }

  lemma RefusedOffers(w: World, e: ExId, step: Step)
    requires CanStep(w, e, step) && step.H2Refused?
    ensures
      var w' := Next(w, By(e, step));
      e in w'.exs && w'.exs[e].phase.Opening? ==> OffersTicket(w, w', w'.exs[e].key, step.expired)
    ensures e in Next(w, By(e, step)).exs ==> !Next(w, By(e, step)).exs[e].phase.Redialing?
  {
    var w1 := w.(exs := w.exs[e := Disowned(w.exs[e]).(phase := Failed)]);
    PoolOffers(w1, e, step.expired);
    if e in FromPool(w1, e, step.expired).exs {
      FromPoolGoes(w1, e, step.expired);
    }
    hide FromPool;
  }

  lemma RedialOffers(w: World, e: ExId, expired: nat)
    requires CanStep(w, e, Redial(expired))
    ensures
      var w' := Next(w, By(e, Redial(expired)));
      e in w'.exs && OffersTicket(w, w', w'.exs[e].key, expired)
  {
    DialOffers(w, e, Redialing(w.exs[e].phase.spent), expired);
    DialSame(w, e, Redialing(w.exs[e].phase.spent), expired);
    hide Dial, OffersTicket;
  }

  lemma StartOffers(w: World, e: ExId, step: Step)
    requires CanStep(w, e, step) && step.Start?
    ensures
      var w' := Next(w, By(e, step));
      e in w'.exs && w'.exs[e].phase.Opening? ==> OffersTicket(w, w', w'.exs[e].key, step.expired)
    ensures e in Next(w, By(e, step)).exs ==> !Next(w, By(e, step)).exs[e].phase.Redialing?
  {
    var w1 := w.(exs := w.exs[e := Unstarted(step.key)]);
    PoolOffers(w1, e, step.expired);
    if e in FromPool(w1, e, step.expired).exs {
      FromPoolGoes(w1, e, step.expired);
    }
    hide FromPool;
  }

  lemma PoolOffers(w: World, e: ExId, expired: nat)
    requires e in w.exs && w.exs[e].phase.Failed?
    ensures
      var w' := FromPool(w, e, expired);
      e in w'.exs && w'.exs[e].phase.Opening? ==>
        w'.exs[e].key == w.exs[e].key && OffersTicket(w, w', w.exs[e].key, expired)
  {
    if Shelves.Take(w.pool, w.exs[e].key).1.Miss? {
      MissOffers(w, e, expired);
    } else {
      NoMissDialsNot(w, e, expired);
    }
    hide FromPool, OffersTicket;
  }

  lemma MissOffers(w: World, e: ExId, expired: nat)
    requires e in w.exs && Shelves.Take(w.pool, w.exs[e].key).1.Miss?
    ensures
      var w' := FromPool(w, e, expired);
      e in w'.exs && w'.exs[e].key == w.exs[e].key && OffersTicket(w, w', w.exs[e].key, expired)
  {
    var w1 := w.(pool := Shelves.Take(w.pool, w.exs[e].key).0);
    DialOffers(w1, e, Opening, expired);
    DialSame(w1, e, Opening, expired);
    hide Dial, Shelves.Take;
  }

  lemma NoMissDialsNot(w: World, e: ExId, expired: nat)
    requires e in w.exs && w.exs[e].phase.Failed? && !Shelves.Take(w.pool, w.exs[e].key).1.Miss?
    ensures e in FromPool(w, e, expired).exs && !FromPool(w, e, expired).exs[e].phase.Opening?
  {
    hide Dial, Shelves.Take, Carrying;
  }

  /** A ticket received on a connection is the next one that a dial for the key of that connection is
      offered, unless the client is closed or keeps none. */
  lemma CapturedIsOffered(w: World, c: ConnId, t: TicketId, e: ExId, phase: Phase)
    requires Enabled(w, TicketOnH1(c, t)) && !w.strict && !w.closed
    requires e in w.exs && w.exs[e].key == w.conns[c].key
    ensures
      var w1 := Next(w, TicketOnH1(c, t));
      && e in w1.exs
      && var w2 := Dial(w1, e, phase, 0);
      w2.store.offered == w.store.offered + [(t, w.conns[c].key)]
  {
  }

  lemma CapturedIsOfferedH2(w: World, h: H2Id, t: TicketId, e: ExId, phase: Phase)
    requires Enabled(w, TicketOnH2(h, t)) && !w.strict && !w.closed
    requires e in w.exs && w.exs[e].key == w.registry.known[h].key
    ensures
      var w1 := Next(w, TicketOnH2(h, t));
      && e in w1.exs
      && var w2 := Dial(w1, e, phase, 0);
      w2.store.offered == w.store.offered + [(t, w.registry.known[h].key)]
  {
  }

  // ---------------------------------------------------------------- what a response does

  /** The head that is read says how the body is framed and whether the connection may be kept; the body is
      tracked from there, and the rest of the wire stays. */
  lemma HeadReadMoves(w: World, e: ExId, throws: bool)
    requires CanStep(w, e, HeadRead(throws))
    ensures
      var w', c := Next(w, By(e, HeadRead(throws))), w.exs[e].phase.conn;
      && e in w'.exs && c in w'.conns
      && w.conns[c].wire[0].Head?
      && w'.exs[e].phase == Streaming(c, w.conns[c].wire[0].framing, w.conns[c].wire[0].keepAlive)
      && w'.exs[e].got == w.exs[e].got + [w.conns[c].wire[0].req]
      && w'.conns[c].wire == w.conns[c].wire[1..] && w'.inflight == w.inflight + {e}
      && w'.pool.lists == w.pool.lists && w'.registry == w.registry && w'.store == w.store
      && w'.conns[c].owner == w.conns[c].owner
  {
    ReadHeadParts(w, e, throws);
    ReadHeadConn(w, e, throws);
    hide ReadHead;
  }

  /** There is a place in the pool that nobody has to leave. */
  ghost predicate RoomFor(w: World, key: Key) {
    |IdleOf(w, key)| < w.pool.maxPerKey && Count(w.pool.lists) < w.pool.maxTotal
  }

  /** c has been put away: it is the newest idle connection of its key exactly when that is `allowed`, the
      pool is open, and there is room or an older connection of the key, which is closed in its stead;
      otherwise it is closed itself. */
  ghost predicate PutAway(w: World, w': World, c: ConnId, allowed: bool)
    requires c in w.conns
  {
    var key, list := w.conns[c].key, IdleOf(w, w.conns[c].key);
    && c in w'.conns && OtherKeysKeep(w, w', key)
    && if allowed && !w.pool.closed && (RoomFor(w, key) || list != []) then
         && w'.conns[c].owner == Idle
         && IdleOf(w', key) == list[if RoomFor(w, key) then 0 else 1..] + [c]
         && (!RoomFor(w, key) ==>
               && list[0] in w'.conns && w'.conns[list[0]].owner == Closed && !w'.conns[list[0]].open)
       else
         w'.conns[c].owner == Closed && !w'.conns[c].open && w'.pool.lists == w.pool.lists
  }

  /** A body has ended as declared: its connection is allowed back exactly when the framing is determinate
      and the response let it be kept. */
  lemma BodyDoneMoves(w: World, e: ExId)
    requires Reachable(w) && CanStep(w, e, BodyDone)
    ensures
      var w', x := Next(w, By(e, BodyDone)), w.exs[e];
      && e in w'.exs && w'.exs[e].phase == Settled
      && PutAway(w, w', x.phase.conn, x.phase.left.Determinate? && x.phase.keepAlive)
  {
    hide Reachable;
    ReachableInv(w);
    HeldConn(w, e);
    var c := w.exs[e].phase.conn;
    VictimIsAnother(w, w.conns[c].key, c);
    hide Inv, ConnOk;
    GivesBackPutsAway(w, c, w.exs[e].phase.left.Determinate? && w.exs[e].phase.keepAlive);
    DoneGivesBack(w, e);
  }

  lemma DoneGivesBack(w: World, e: ExId)
    requires CanStep(w, e, BodyDone)
    requires
      var x := w.exs[e];
      var allowed := x.phase.left.Determinate? && x.phase.keepAlive;
      PutAway(w, GiveBack(w, x.phase.conn, allowed), x.phase.conn, allowed)
    ensures
      var w', x := Next(w, By(e, BodyDone)), w.exs[e];
      && e in w'.exs && w'.exs[e].phase == Settled
      && PutAway(w, w', x.phase.conn, x.phase.left.Determinate? && x.phase.keepAlive)
  {
    var x := w.exs[e];
    var allowed := x.phase.left.Determinate? && x.phase.keepAlive;
    GiveBackLeaves(w, x.phase.conn, allowed);
    hide GiveBack, RoomFor;
    assert Next(w, By(e, BodyDone)) == SetPhase(GiveBack(w, x.phase.conn, allowed), e, Settled);
    hide Next;
    assert forall k :: IdleOf(SetPhase(GiveBack(w, x.phase.conn, allowed), e, Settled), k)
                       == IdleOf(GiveBack(w, x.phase.conn, allowed), k);
  }

  lemma GivesBackPutsAway(w: World, c: ConnId, allowed: bool)
    requires c in w.conns
    requires IdleOf(w, w.conns[c].key) != [] ==>
               IdleOf(w, w.conns[c].key)[0] in w.conns && IdleOf(w, w.conns[c].key)[0] != c
    ensures PutAway(w, GiveBack(w, c, allowed), c, allowed)
  {
    if !allowed || w.pool.closed || (Full(w.pool, w.conns[c].key) && IdleOf(w, w.conns[c].key) == []) {
      RefusedPutsAway(w, c, allowed);
    } else if Full(w.pool, w.conns[c].key) {
      EvictingPutsAway(w, c);
    } else {
      RoomPutsAway(w, c);
    }
    hide GiveBack, PutAway;
  }

  lemma RefusedPutsAway(w: World, c: ConnId, allowed: bool)
    requires c in w.conns
    requires !allowed || w.pool.closed || (Full(w.pool, w.conns[c].key) && IdleOf(w, w.conns[c].key) == [])
    ensures PutAway(w, GiveBack(w, c, allowed), c, allowed)
  {
    hide Count;
  }

  lemma EvictingPutsAway(w: World, c: ConnId)
    requires c in w.conns && !w.pool.closed && Full(w.pool, w.conns[c].key) && IdleOf(w, w.conns[c].key) != []
    requires IdleOf(w, w.conns[c].key)[0] in w.conns && IdleOf(w, w.conns[c].key)[0] != c
    ensures PutAway(w, GiveBack(w, c, true), c, true)
  {
    hide Count;
  }

  lemma RoomPutsAway(w: World, c: ConnId)
    requires c in w.conns && !w.pool.closed && !Full(w.pool, w.conns[c].key)
    ensures PutAway(w, GiveBack(w, c, true), c, true)
  {
    hide Count;
  }

  lemma VictimIsAnother(w: World, key: Key, c: ConnId)
    requires Inv(w) && c in w.conns && !w.conns[c].owner.Idle?
    ensures IdleOf(w, key) != [] ==> IdleOf(w, key)[0] in w.conns && IdleOf(w, key)[0] != c
  {
    if IdleOf(w, key) != [] {
      assert IdleIn(w.pool.lists, key, IdleOf(w, key)[0]);
      VictimIdle(w, key, IdleOf(w, key)[0]);
    }
  }

  /** A body that is cancelled or breaks off takes its connection with it. */
  lemma BodyAbandonedMoves(w: World, e: ExId, step: Step)
    requires CanStep(w, e, step) && (step.BodyCancelled? || step.BodyBroke?)
    ensures
      var w', c := Next(w, By(e, step)), w.exs[e].phase.conn;
      && e in w'.exs && w'.exs[e].phase == Settled && c in w'.conns
      && w'.conns[c].owner == Closed && !w'.conns[c].open && w'.pool.lists == w.pool.lists
      && w'.conns == w.conns[c := w'.conns[c]]
  {
    hide Contents, Count;
  }

  // ---------------------------------------------------------------- a connection told to close

  /** What the last answer on c in `actions` said of keeping it; `before` if there is none. */
  function LastWord(actions: seq<Action>, c: ConnId, before: bool): bool
    decreases |actions|
  {
    if actions == [] then before
    else
      var a := actions[0];
      LastWord(actions[1..], c, if a.On? && a.c == c && a.event.Answers? then a.event.keepAlive else before)
  }

  function Says(w: World, c: ConnId): bool {
    if c in w.conns then w.conns[c].said else true
  }

  lemma NextSays(w: World, a: Action, c: ConnId)
    requires Inv(w) && Enabled(w, a)
    ensures Says(Next(w, a), c) == if a.On? && a.c == c && a.event.Answers? then a.event.keepAlive else Says(w, c)
  {
    hide Inv;
    if a.By? {
      StepSays(w, a.e, a.step, c);
      hide Next, Stepped;
    } else if a.Close? {
      CloseSays(w, c);
      hide Next;
    } else {
      PeerSays(w, a, c);
      hide Next;
    }
  }

  lemma CloseSays(w: World, c: ConnId)
    ensures Says(Next(w, Close), c) == Says(w, c)
  {
    hide Shelves.CloseAll, Registry.CloseAll;
  }

  lemma PeerSays(w: World, a: Action, c: ConnId)
    requires Enabled(w, a) && !a.By? && !a.Close?
    ensures Says(Next(w, a), c) == if a.On? && a.c == c && a.event.Answers? then a.event.keepAlive else Says(w, c)
  {
    hide GoAway, Die, Tickets.Put;
  }

  lemma StepSays(w: World, e: ExId, step: Step, c: ConnId)
    requires Inv(w) && CanStep(w, e, step)
    ensures Says(Stepped(w, e, step), c) == Says(w, c)
  {
    hide Inv;
    StepLeaves(w, e, step);
    if step.Start? {
      var w1 := w.(exs := w.exs[e := Unstarted(step.key)]);
      FromPoolConns(w, w1, e, step.expired);
      FromPoolLeaves(w1, e, step.expired);
      hide FromPool;
    } else if step.H2Refused? {
      var w1 := w.(exs := w.exs[e := Disowned(w.exs[e]).(phase := Failed)]);
      FromPoolConns(w, w1, e, step.expired);
      FromPoolLeaves(w1, e, step.expired);
      hide FromPool;
    } else if ByPool(step) {
      GiveBackSays(w, w.exs[e].phase.conn, Eligible(w.exs[e].phase, step), c);
      hide GiveBack;
    } else if Holding(w.exs[e].phase) == Some(c) {
      HeldSays(w, e, step, c);
      hide Stepped;
    } else {
      FreeSays(w, e, step, c);
      hide Stepped;
    }
  }

  lemma GiveBackSays(w: World, d: ConnId, eligible: bool, c: ConnId)
    requires d in w.conns
    ensures Says(GiveBack(w, d, eligible), c) == Says(w, c)
  {
    hide Full, Shelves.Release, Victim;
  }

  lemma ReadSays(w: World, e: ExId, step: Step, c: ConnId)
    requires CanStep(w, e, step) && (step.HeadRead? || step.BodyRead?) && Holding(w.exs[e].phase) == Some(c)
    ensures Says(Stepped(w, e, step), c) == Says(w, c)
  {
    if step.HeadRead? {
      ReadHeadConn(w, e, step.throws);
    }
    hide ReadHead;
  }

  lemma HeldSays(w: World, e: ExId, step: Step, c: ConnId)
    requires CanStep(w, e, step) && !ByPool(step) && Holding(w.exs[e].phase) == Some(c)
    ensures Says(Stepped(w, e, step), c) == Says(w, c)
  {
    if step.HeadRead? || step.BodyRead? {
      ReadSays(w, e, step, c);
      hide Stepped;
    } else {
      hide FromPool, GiveBack, ReadHead, ReadBody, Connected, Dial, DispatchH2, Shelves.Discard;
    }
  }

  lemma FreeSays(w: World, e: ExId, step: Step, c: ConnId)
    requires CanStep(w, e, step) && !ByPool(step) && Holding(w.exs[e].phase) != Some(c)
    ensures Says(Stepped(w, e, step), c) == Says(w, c)
  {
    hide FromPool, GiveBack;
  }

  lemma {:induction false} SaysAfter(w: World, actions: seq<Action>, end: World, c: ConnId)
    requires Inv(w) && Run(w, actions, end)
    ensures Inv(end) && Says(end, c) == LastWord(actions, c, Says(w, c))
    decreases |actions|
  {
    if actions != [] {
      NextKeeps(w, actions[0]);
      NextSays(w, actions[0], c);
      hide Inv, Next, Says;
      SaysAfter(Next(w, actions[0]), actions[1..], end, c);
    }
  }

  /** In every run, a connection is in the pool only if the last answer that came on it allowed it to be
      kept (section 9.3 of RFC 9112). */
  lemma KeptOnlyIfAllowed(start: World, actions: seq<Action>, end: World, c: ConnId, key: Key)
    requires Untouched(start) && Run(start, actions, end)
    requires IdleIn(end.pool.lists, key, c) || (c in end.conns && end.conns[c].owner == Idle)
    ensures LastWord(actions, c, true)
  {
    InitOk(start.strict, start.tlsAlpn, start.http2, start.pool.maxPerKey, start.pool.maxTotal);
    assert Says(start, c);
    hide Run;
    SaysAfter(start, actions, end, c);
    IdleSays(end, c, key);
  }

  lemma IdleSays(w: World, c: ConnId, key: Key)
    requires Inv(w)
    requires IdleIn(w.pool.lists, key, c) || (c in w.conns && w.conns[c].owner == Idle)
    ensures Says(w, c)
  {
    if IdleIn(w.pool.lists, key, c) {
      VictimIdle(w, key, c);
    }
    assert ConnOk(w, c);
  }
}
