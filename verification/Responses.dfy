/** Who reads whose response, and who holds each connection. */
module Responses {
  import opened Wrappers
  import opened Shelves
  import opened Protocol
  import opened Safety

  // ---------------------------------------------------------------- responses

  /** Everything an exchange has read as its response was sent in answer to its own request. */
  lemma ResponsesAreOwn(w: World, e: ExId)
    requires Reachable(w) && e in w.exs
    ensures forall tag <- w.exs[e].got :: tag == e
  {
    hide Inv, Reachable;
    ReachableInv(w);
    View(w, e);
  }

  /** The next thing an exchange reads is a head or a piece of the body of its own response. */
  lemma NextReadIsOwn(w: World, e: ExId)
    requires Reachable(w) && e in w.exs
    ensures CanStep(w, e, HeadRead(false)) ==> w.conns[w.exs[e].phase.conn].wire[0].req == e
    ensures CanStep(w, e, BodyRead) ==> w.conns[w.exs[e].phase.conn].wire[0] == Body(e)
  {
    hide Inv, Reachable;
    ReachableInv(w);
    if Holding(w.exs[e].phase).Some? {
      HeldConn(w, e);
      if w.exs[e].phase.Streaming? {
        DrainingBody(w, e);
      } else {
        PendingHead(w, e);
      }
      hide ConnOk;
    }
  }

  /** A connection in the pool has no unanswered request and not one unread byte on it. */
  lemma IdleIsQuiet(w: World, key: Key, c: ConnId)
    requires Reachable(w) && IdleIn(w.pool.lists, key, c)
    ensures c in w.conns && w.conns[c].key == key && Quiet(w.conns[c])
  {
    hide Inv, Reachable;
    ReachableInv(w);
    VictimIdle(w, key, c);
  }

  // ---------------------------------------------------------------- connections

  /** Each HTTP/1.1 connection ever opened is exactly one of: held by one exchange or its body, idle
      once and under the key it was opened for, closed, or lost. */
  lemma OneOwner(w: World, c: ConnId)
    requires Reachable(w) && c in w.conns
    ensures w.conns[c].owner.HeldBy? <==> exists e <- w.exs :: Holding(w.exs[e].phase) == Some(c)
    ensures forall e <- w.exs :: Holding(w.exs[e].phase) == Some(c) ==>
              w.conns[c].owner == HeldBy(e) && w.conns[c].key == w.exs[e].key
    ensures w.conns[c].owner.Idle? <==> exists key :: IdleIn(w.pool.lists, key, c)
    ensures forall key :: IdleIn(w.pool.lists, key, c) ==>
              w.conns[c].key == key && Tickets.Distinct(w.pool.lists[key])
    ensures w.conns[c].owner.Closed? ==> !w.conns[c].open
    ensures w.conns[c].owner.Lost? ==> w.conns[c].open
    ensures w.conns[c].owner.HeldBy? || w.conns[c].owner.Idle? ==> w.conns[c].open || w.conns[c].spoiled
  {
    ReachableInv(w);
    assert ConnOk(w, c) && PoolOk(w);
    forall e <- w.exs | Holding(w.exs[e].phase) == Some(c)
      ensures w.conns[c].owner == HeldBy(e) && w.conns[c].key == w.exs[e].key
    {
      HeldConn(w, e);
    }
    hide Inv, WireOk, QueueOk, Fits;
    if w.conns[c].owner.HeldBy? {
      assert Holding(w.exs[w.conns[c].owner.ex].phase) == Some(c);
    }
  }
}
