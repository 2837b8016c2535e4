/** What the exchanges of a client share besides the pool: HTTP/2 connections and session tickets. */
module Sharing {
  import opened Registry
  import opened Protocol
  import opened Safety
  import opened Steps

  // ---------------------------------------------------------------- HTTP/2 connections

  /** In every reachable state a keyed connection is in the full set, under its own key, and the full
      set holds exactly the live connections that no GOAWAY has been received on. */
  lemma RegistryExact(w: World)
    requires Reachable(w)
    ensures Consistent(w.registry)
  {
    hide Reachable;
    ReachableInv(w);
  }

  /** close() closes exactly the live connections of the full set: the race-orphaned ones too, but not
      one whose peer said GOAWAY and is still answering.  So it closes them all exactly when no live
      connection has been told to go away. */
  lemma CloseSweeps(w: World)
    requires Reachable(w)
    ensures
      var known, known' := w.registry.known, Closing(w).registry.known;
      && known'.Keys == known.Keys
      && (forall h <- w.registry.all :: h in known && !known'[h].alive)
      && (forall h <- known :: known'[h].alive <==> known[h].alive && known[h].goingAway)
      && ((forall h <- known :: !known'[h].alive) <==> forall h <- known :: known[h].alive ==> !known[h].goingAway)
  {
    RegistryExact(w);
    hide Reachable;
  }

  /** The action takes h away, or registers another connection under the key. */
  ghost predicate Disturbs(w: World, a: Action, key: Key, h: H2Id) {
    || a == GoesAway(h) || a == Dies(h) || a == Close
    || (a.By? && Registers(a.step).Some? && a.e in w.exs && w.exs[a.e].key == key)
  }

  /** A run in which nothing disturbs that entry. */
  ghost predicate RunUndisturbed(w: World, actions: seq<Action>, end: World, key: Key, h: H2Id)
    decreases |actions|
  {
    if actions == [] then w == end
    else
      && Enabled(w, actions[0]) && !Disturbs(w, actions[0], key, h)
      && RunUndisturbed(Next(w, actions[0]), actions[1..], end, key, h)
  }

  /** What one action makes of the registry. */
  ghost predicate RegistryMove(w: World, a: Action, r: Register) {
    match a
    case By(e, step) =>
      (match Registers(step)
       case None => r == w.registry
       case Some(h) => e in w.exs && h !in w.registry.known && r == Registry.Add(w.registry, w.exs[e].key, h))
    case GoesAway(h) => h in w.registry.known && r == GoAway(w.registry, h)
    case Dies(h) => h in w.registry.known && r == Die(w.registry, h)
    case Close => r == Registry.CloseAll(w.registry)
    case _ => r == w.registry
  }

  lemma NextRegistry(w: World, a: Action)
    requires Enabled(w, a)
    ensures RegistryMove(w, a, Next(w, a).registry)
  {
    if a.By? {
      StepLeaves(w, a.e, a.step);
      hide Next;
    }
    hide Stepped, Served, Shelves.CloseAll, Registry.CloseAll, Tickets.Put, GoAway, Die;
  }

  lemma EntryStays(w: World, a: Action, r: Register, key: Key, h: H2Id)
    requires Consistent(w.registry) && RegistryMove(w, a, r) && !Disturbs(w, a, key, h)
    requires key in w.registry.keyed && w.registry.keyed[key] == h
    ensures key in r.keyed && r.keyed[key] == h && Consistent(r)
  {
  }

  /** The connection a key is dispatched on stays the one, whatever others of that key or of any other die
      or go away, in every run in which it does not do so itself, the client is not closed and no newer
      connection of the key is registered: the death of the one it superseded does not remove it. */
  lemma {:induction false} SuccessorStays(w: World, actions: seq<Action>, end: World, key: Key, h: H2Id)
    requires Consistent(w.registry) && RunUndisturbed(w, actions, end, key, h)
    requires key in w.registry.keyed && w.registry.keyed[key] == h
    ensures key in end.registry.keyed && end.registry.keyed[key] == h
    decreases |actions|
  {
    if actions != [] {
      hide Disturbs, Next, Consistent, RegistryMove;
      NextRegistry(w, actions[0]);
      EntryStays(w, actions[0], Next(w, actions[0]).registry, key, h);
      SuccessorStays(Next(w, actions[0]), actions[1..], end, key, h);
    }
  }

  // ---------------------------------------------------------------- tickets

  /** Every ticket a connection was offered had been captured by a connection of the same key, and no
      ticket is offered twice; under require-staple none is stored or offered, and a closed client
      stores none. */
  lemma TicketsIsolated(w: World)
    requires Reachable(w)
    ensures forall key, t :: key in w.store.held && t in w.store.held[key] ==>
              t in w.store.earned && w.store.earned[t] == key
    ensures forall o <- w.store.offered :: o.0 in w.store.earned && w.store.earned[o.0] == o.1
    ensures forall i, j | 0 <= i < j < |w.store.offered| :: w.store.offered[i].0 != w.store.offered[j].0
    ensures w.strict ==> w.store.held == map[] && w.store.offered == []
    ensures w.closed ==> w.store.held == map[]
  {
    hide Reachable;
    ReachableInv(w);
    assert StoreOk(w.store, w.closed, w.strict);
    hide Inv;
  }
}
