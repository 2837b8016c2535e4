/** What becomes of connections in whole runs: which leak, and which are closed too early. */
module Leaks {
  import opened Wrappers
  import opened Shelves
  import opened Registry
  import opened Protocol
  import opened Safety
  import opened Steps

  // ---------------------------------------------------------------- the steps that do it

  /** A re-sent request fails before its body is tracked: the handler closes the pooled connection
      once more and forgets the fresh one. */
  ghost predicate Loses(w: World, a: Action, c: ConnId) {
    && a.By? && a.step.Broken? && CanStep(w, a.e, a.step)
    && w.exs[a.e].phase.conn == c && w.exs[a.e].phase.via.Resent?
  }

  ghost predicate Throws(w: World, a: Action, c: ConnId) {
    && a.By? && a.step == HeadRead(true) && CanStep(w, a.e, a.step)
    && w.exs[a.e].phase.conn == c
  }

  /** Building the response throws when its body is already tracked, and the handler closes the
      connection under the body. */
  ghost predicate Spoils(w: World, a: Action, c: ConnId) {
    Throws(w, a, c) && !w.exs[a.e].phase.via.Resent?
  }

  /** The body on c is left to nobody, and c is open.  Building the response throws on a connection
      dialled for a re-send, and the handler closes the pooled one once more; or the head is that of a
      205 that declares a body; or the fetch throws over an answer it has (a redirect it may not, or
      cannot, follow) and neither reads nor cancels it. */
  ghost predicate Orphans(w: World, a: Action, c: ConnId) {
    || (Throws(w, a, c) && w.exs[a.e].phase.via.Resent?)
    || (&& a.By? && a.step == HeadRead(false) && CanStep(w, a.e, a.step) && w.exs[a.e].phase.conn == c
        && Withheld(w, a.e, a.step) && !w.conns[c].spoiled)
    || (&& a.By? && a.step.GivenUp? && CanStep(w, a.e, a.step) && Holding(w.exs[a.e].phase) == Some(c)
        && c in w.conns && !w.conns[c].spoiled)
  }

  /** The body on c settles. */
  ghost predicate Ends(w: World, a: Action, c: ConnId) {
    && a.By? && (a.step.BodyDone? || a.step.BodyCancelled? || a.step.BodyBroke?) && CanStep(w, a.e, a.step)
    && w.exs[a.e].phase.conn == c
  }

  // ---------------------------------------------------------------- the marks they leave

  ghost predicate IsLost(w: World, c: ConnId) {
    c in w.conns && w.conns[c].owner.Lost?
  }

  ghost predicate IsSpoiled(w: World, c: ConnId) {
    c in w.conns && w.conns[c].spoiled
  }

  /** Held, and still open, by a body nobody has. */
  ghost predicate IsOrphan(w: World, c: ConnId) {
    && c in w.conns && w.conns[c].owner.HeldBy? && !w.conns[c].spoiled
    && w.conns[c].owner.ex in w.exs && w.exs[w.conns[c].owner.ex].unheld
  }

  /** The three marks of a connection are what an action makes of them. */
  ghost predicate Marked(w: World, w': World, a: Action, c: ConnId) {
    && (IsLost(w', c) <==> IsLost(w, c) || Loses(w, a, c))
    && (IsSpoiled(w', c) <==> IsSpoiled(w, c) || Spoils(w, a, c))
    && (IsOrphan(w', c) <==> (IsOrphan(w, c) && !Ends(w, a, c)) || Orphans(w, a, c))
  }

  ghost predicate SameMark(w: World, w': World, c: ConnId) {
    && (IsLost(w', c) <==> IsLost(w, c))
    && (IsSpoiled(w', c) <==> IsSpoiled(w, c))
    && (IsOrphan(w', c) <==> IsOrphan(w, c))
  }

  lemma SameConnSameMark(w: World, w': World, e: ExId, c: ConnId)
    requires c in w.conns && c in w'.conns && e in w'.exs && w'.exs == w.exs[e := w'.exs[e]]
    requires !w'.exs[e].unheld && (e in w.exs ==> !w.exs[e].unheld)
    requires w'.conns[c] == w.conns[c] || (w.conns[c].owner.Idle? && w'.conns[c] == Carrying(w.conns[c], e))
    requires w.conns[c].owner.HeldBy? ==> w.conns[c].owner.ex in w.exs
    ensures SameMark(w, w', c)
  {
  }

  lemma NoConnNoMark(w: World, w': World, c: ConnId)
    requires c !in w.conns && c !in w'.conns
    ensures SameMark(w, w', c)
  {
  }

  lemma FromPoolMark(w: World, w1: World, e: ExId, expired: nat, c: ConnId)
    requires Inv(w) && e in w1.exs && !w1.exs[e].unheld && w1.conns == w.conns && w1.pool == w.pool
    requires w1.exs == w.exs[e := w1.exs[e]] && (e in w.exs ==> !w.exs[e].unheld)
    ensures SameMark(w, FromPool(w1, e, expired), c)
  {
    FromPoolLeaves(w1, e, expired);
    FromPoolGoes(w1, e, expired);
    FromPoolConns(w, w1, e, expired);
    hide Inv, FromPool;
    hide IsLost, IsSpoiled, IsOrphan;
    if c in w.conns {
      if w.conns[c].owner.HeldBy? {
        HolderKnown(w, c);
      }
      SameConnSameMark(w, FromPool(w1, e, expired), e, c);
    } else {
      NoConnNoMark(w, FromPool(w1, e, expired), c);
    }
  }

  /** The pool hands out at most one connection, an idle one. */
  lemma FromPoolConns(w: World, w1: World, e: ExId, expired: nat)
    requires Inv(w) && e in w1.exs && w1.conns == w.conns && w1.pool == w.pool
    ensures forall c <- w.conns ::
              && c in FromPool(w1, e, expired).conns
              && (FromPool(w1, e, expired).conns[c] == w.conns[c]
                  || (w.conns[c].owner.Idle? && FromPool(w1, e, expired).conns[c] == Carrying(w.conns[c], e)))
  {
    hide Inv;
    var taken := Shelves.Take(w.pool, w1.exs[e].key).1;
    if taken.Hit? {
      TakenIsIdle(w, w1.exs[e].key, taken.conn);
    }
    hide Shelves.Take, Tickets.Take;
  }

  lemma HolderKnown(w: World, c: ConnId)
    requires Inv(w) && c in w.conns && w.conns[c].owner.HeldBy?
    ensures w.conns[c].owner.ex in w.exs && Holding(w.exs[w.conns[c].owner.ex].phase) == Some(c)
  {
    assert ConnOk(w, c);
  }

  lemma GiveBackTouches(w: World, c: ConnId, eligible: bool)
    requires c in w.conns
    ensures
      var w', victim := GiveBack(w, c, eligible), Victim(w.pool, w.conns[c].key, eligible);
      && w'.conns.Keys == w.conns.Keys
      && w'.conns[c].spoiled == w.conns[c].spoiled && (w'.conns[c].owner.Idle? || w'.conns[c].owner.Closed?)
      && (forall d <- w.conns :: d != c ==> w'.conns[d] == ShutIf(w.conns, victim)[d])
  {
    hide Full, Shelves.Release, Victim;
  }

  /** Giving c back takes the mark of an orphan off it, and touches no other mark. */
  lemma GiveBackMark(w: World, e: ExId, eligible: bool, d: ConnId)
    requires Inv(w) && e in w.exs && w.exs[e].phase.Streaming? && w.exs[e].phase.conn in w.conns
    ensures
      var w' := GiveBack(w, w.exs[e].phase.conn, eligible);
      && (IsLost(w', d) <==> IsLost(w, d)) && (IsSpoiled(w', d) <==> IsSpoiled(w, d))
      && (IsOrphan(w', d) <==> IsOrphan(w, d) && d != w.exs[e].phase.conn)
  {
    var c := w.exs[e].phase.conn;
    var victim := Victim(w.pool, w.conns[c].key, eligible);
    hide Inv, ConnOk;
    HeldConn(w, e);
    GiveBackTouches(w, c, eligible);
    GiveBackLeaves(w, c, eligible);
    if victim.Some? {
      VictimIdle(w, w.conns[c].key, victim.value);
    }
    hide GiveBack, Victim, OpensNothing;
  }

  lemma PhaseMark(w: World, e: ExId, phase: Phase, c: ConnId)
    requires e in w.exs
    ensures SameMark(w, SetPhase(w, e, phase), c)
  {
  }

  lemma BodyStepMark(w: World, e: ExId, step: Step, c: ConnId)
    requires Inv(w) && CanStep(w, e, step) && (step.BodyDone? || step.BodyCancelled?)
    ensures Marked(w, Stepped(w, e, step), By(e, step), c)
  {
    hide Inv;
    var eligible := Eligible(w.exs[e].phase, step);
    GiveBackMark(w, e, eligible, c);
    GiveBackLeaves(w, w.exs[e].phase.conn, eligible);
    PhaseMark(GiveBack(w, w.exs[e].phase.conn, eligible), e, Settled, c);
    hide FromPool, GiveBack, Full, IsOrphan, OpensNothing;
  }

  lemma StartMark(w: World, e: ExId, step: Step, c: ConnId)
    requires Inv(w) && CanStep(w, e, step) && step.Start?
    ensures Marked(w, Stepped(w, e, step), By(e, step), c)
  {
    hide Inv;
    var w1 := w.(exs := w.exs[e := Unstarted(step.key)]);
    FromPoolMark(w, w1, e, step.expired, c);
    if c in w.conns && w.conns[c].owner.HeldBy? {
      HolderKnown(w, c);
    }
    hide FromPool;
  }

  lemma RefusedMark(w: World, e: ExId, step: Step, c: ConnId)
    requires Inv(w) && CanStep(w, e, step) && step.H2Refused?
    ensures Marked(w, Stepped(w, e, step), By(e, step), c)
  {
    hide Inv, PoolOk, StoreOk, Consistent;
    View(w, e);
    FromPoolMark(w, w.(exs := w.exs[e := Disowned(w.exs[e]).(phase := Failed)]), e, step.expired, c);
    hide FromPool, IsOrphan;
  }

  /** A step that the pool has no part in moves no connection but the one its exchange holds, and a new
      one is held by it and not spoiled. */
  lemma OtherConnsStay(w: World, e: ExId, step: Step, c: ConnId)
    requires CanStep(w, e, step) && !ByPool(step) && Holding(w.exs[e].phase) != Some(c)
    ensures
      var w' := Stepped(w, e, step);
      && (c in w.conns ==> c in w'.conns && w'.conns[c] == w.conns[c])
      && (c !in w.conns && c in w'.conns ==> w'.conns[c].owner == HeldBy(e) && !w'.conns[c].spoiled && !step.HeadRead? && !step.H2Answered?)
  {
    hide FromPool, GiveBack;
  }

  lemma OtherMark(w: World, e: ExId, step: Step, c: ConnId)
    requires Inv(w) && CanStep(w, e, step) && !ByPool(step) && Holding(w.exs[e].phase) != Some(c)
    ensures Marked(w, Stepped(w, e, step), By(e, step), c)
  {
    hide Inv, PoolOk, StoreOk, Consistent, HoldsOk;
    StepLeaves(w, e, step);
    StepCounts(w, e, step);
    OtherConnsStay(w, e, step, c);
    View(w, e);
    if c in w.conns && w.conns[c].owner.HeldBy? {
      HolderKnown(w, c);
    }
    hide Stepped, ExOk;
    if c in w.conns {
      OtherConnMark(w, Stepped(w, e, step), e, step, c);
    }
  }

  lemma OtherConnMark(w: World, w': World, e: ExId, step: Step, c: ConnId)
    requires c in w.conns && c in w'.conns && w'.conns[c] == w.conns[c] && CanStep(w, e, step) && !ByPool(step)
    requires w'.exs.Keys >= w.exs.Keys && forall o <- w.exs :: o != e ==> w'.exs[o] == w.exs[o]
    requires Holding(w.exs[e].phase) != Some(c)
    requires w.conns[c].owner.HeldBy? ==>
               w.conns[c].owner.ex in w.exs && Holding(w.exs[w.conns[c].owner.ex].phase) == Some(c)
    ensures Marked(w, w', By(e, step), c)
  {
  }

  lemma BrokenConn(w: World, e: ExId)
    requires CanStep(w, e, Broken)
    ensures
      var w', c := Stepped(w, e, Broken), w.exs[e].phase.conn;
      && c in w'.conns && w'.conns[c].spoiled == w.conns[c].spoiled
      && w'.conns[c].owner == if w.exs[e].phase.via.Resent? then Lost else Closed
  {
    hide Shelves.Discard;
  }

  lemma HeldBroken(w: World, e: ExId)
    requires CanStep(w, e, Broken) && w.conns[w.exs[e].phase.conn].owner == HeldBy(e) && !w.exs[e].unheld
    ensures Marked(w, Stepped(w, e, Broken), By(e, Broken), w.exs[e].phase.conn)
  {
    BrokenConn(w, e);
    hide Stepped;
  }

  lemma HeldRead(w: World, e: ExId, throws: bool)
    requires CanStep(w, e, HeadRead(throws)) && w.conns[w.exs[e].phase.conn].owner == HeldBy(e) && !w.exs[e].unheld
    requires !w.exs[e].phase.via.Pooled? ==> !w.conns[w.exs[e].phase.conn].spoiled
    ensures Marked(w, Stepped(w, e, HeadRead(throws)), By(e, HeadRead(throws)), w.exs[e].phase.conn)
  {
  }

  lemma HeldDropped(w: World, e: ExId, step: Step)
    requires CanStep(w, e, step) && (step.BodyBroke? || (step.NeverSaw? && !w.exs[e].unheld))
    requires w.exs[e].phase.conn in w.conns && w.conns[w.exs[e].phase.conn].owner == HeldBy(e)
    ensures Marked(w, Stepped(w, e, step), By(e, step), w.exs[e].phase.conn)
  {
    hide Shelves.Discard;
  }

  lemma HeldOn(w: World, e: ExId, step: Step)
    requires CanStep(w, e, step) && (step.WriteDone? || step.BodyRead?)
    requires w.exs[e].phase.conn in w.conns && w.conns[w.exs[e].phase.conn].owner == HeldBy(e)
    ensures Marked(w, Stepped(w, e, step), By(e, step), w.exs[e].phase.conn)
  {
  }

  lemma HeldMarked(w: World, e: ExId, step: Step)
    requires CanStep(w, e, step) && (step.GivenUp? || step.Sticks?) && w.exs[e].phase.Streaming?
    requires w.exs[e].phase.conn in w.conns && w.conns[w.exs[e].phase.conn].owner == HeldBy(e)
    ensures Marked(w, Stepped(w, e, step), By(e, step), w.exs[e].phase.conn)
  {
    hide ReadHead, ReadBody, Connected, Dial, DispatchH2, FromPool, GiveBack, Drop, Abandon, Shelves.Discard;
  }

  lemma HeldMark(w: World, e: ExId, step: Step)
    requires Inv(w) && CanStep(w, e, step) && !ByPool(step) && Holding(w.exs[e].phase).Some?
    ensures Marked(w, Stepped(w, e, step), By(e, step), Holding(w.exs[e].phase).value)
  {
    hide Inv, PoolOk, StoreOk, Consistent, ConnOk, Stepped, Marked;
    HeldConn(w, e);
    View(w, e);
    if step.Broken? {
      HeldBroken(w, e);
    } else if step.HeadRead? {
      HeldRead(w, e, step.throws);
    } else if step.GivenUp? || step.Sticks? {
      HeldMarked(w, e, step);
    } else if step.NeverSaw? || step.BodyBroke? {
      HeldDropped(w, e, step);
    } else {
      HeldOn(w, e, step);
    }
  }

  lemma NextMarks(w: World, a: Action, c: ConnId)
    requires Inv(w) && Enabled(w, a)
    ensures Marked(w, Next(w, a), a, c)
  {
    hide Inv;
    if !a.By? {
      PeerMark(w, a, c);
    } else if a.step.Start? {
      StartMark(w, a.e, a.step, c);
    } else if a.step.H2Refused? {
      RefusedMark(w, a.e, a.step, c);
    } else if ByPool(a.step) {
      BodyStepMark(w, a.e, a.step, c);
    } else if Holding(w.exs[a.e].phase) == Some(c) {
      HeldMark(w, a.e, a.step);
    } else {
      OtherMark(w, a.e, a.step, c);
    }
    hide Stepped, Marked;
  }

  lemma PeerMark(w: World, a: Action, c: ConnId)
    requires Inv(w) && Enabled(w, a) && !a.By?
    ensures Marked(w, Next(w, a), a, c)
  {
    hide Inv;
    PeerLeaves(w, a);
    PeerConns(w, a);
    hide Next, Stepped, Enabled;
    if c in w.conns && w.conns[c].owner.HeldBy? {
      HolderKnown(w, c);
    }
    PeerSameMark(w, Next(w, a), c);
    hide IsLost, IsSpoiled, IsOrphan;
  }

  lemma PeerSameMark(w: World, w': World, c: ConnId)
    requires w'.conns.Keys == w.conns.Keys && w'.exs.Keys == w.exs.Keys
    requires forall e <- w.exs :: w'.exs[e] == w.exs[e] || w'.exs[e] == Processed(w.exs[e])
    requires c in w.conns ==>
               && w'.conns[c].spoiled == w.conns[c].spoiled
               && (w'.conns[c].owner == w.conns[c].owner || (w.conns[c].owner.Idle? && w'.conns[c].owner.Closed?))
    requires c in w.conns && w.conns[c].owner.HeldBy? ==> w.conns[c].owner.ex in w.exs
    ensures SameMark(w, w', c)
  {
    if c in w.conns && w.conns[c].owner.HeldBy? {
      assert w'.exs[w.conns[c].owner.ex].unheld == w.exs[w.conns[c].owner.ex].unheld;
    }
  }

  // ---------------------------------------------------------------- whole runs

  datatype Mishap = Loss | Spoiling

  /** A re-sent request fails on c, or building a response throws on it, in a run from w. */
  ghost predicate Happens(w: World, actions: seq<Action>, c: ConnId, what: Mishap)
    decreases |actions|
  {
    && actions != [] && Enabled(w, actions[0])
    && ((if what.Loss? then Loses(w, actions[0], c) else Spoils(w, actions[0], c))
        || Happens(Next(w, actions[0]), actions[1..], c, what))
  }

  /** No body settles on c in a run from w. */
  ghost predicate NeverEnds(w: World, actions: seq<Action>, c: ConnId)
    decreases |actions|
  {
    actions != [] ==>
      Enabled(w, actions[0]) && !Ends(w, actions[0], c) && NeverEnds(Next(w, actions[0]), actions[1..], c)
  }

  /** In a run from w, the body on c is left to nobody, and it does not settle afterwards. */
  ghost predicate LeftUnread(w: World, actions: seq<Action>, c: ConnId)
    decreases |actions|
  {
    && actions != [] && Enabled(w, actions[0])
    && ((Orphans(w, actions[0], c) && NeverEnds(Next(w, actions[0]), actions[1..], c))
        || LeftUnread(Next(w, actions[0]), actions[1..], c))
  }

  lemma {:induction false} MarkedExactlyWhen(w: World, actions: seq<Action>, end: World, c: ConnId)
    requires Inv(w) && Run(w, actions, end)
    ensures IsLost(end, c) <==> IsLost(w, c) || Happens(w, actions, c, Loss)
    ensures IsSpoiled(end, c) <==> IsSpoiled(w, c) || Happens(w, actions, c, Spoiling)
    ensures IsOrphan(end, c) <==> (IsOrphan(w, c) && NeverEnds(w, actions, c)) || LeftUnread(w, actions, c)
    decreases |actions|
  {
    if actions != [] {
      hide Inv, Loses, Spoils, Orphans, Ends, Next, IsLost, IsSpoiled, IsOrphan;
      NextKeeps(w, actions[0]);
      NextMarks(w, actions[0], c);
      MarkedExactlyWhen(Next(w, actions[0]), actions[1..], end, c);
    }
  }

  /** An open connection that something is there to give back or close: the pool, an exchange, or a body
      that somebody has. */
  ghost predicate Kept(w: World, c: ConnId)
    requires c in w.conns
  {
    var conn := w.conns[c];
    conn.open ==> conn.owner.Idle? || (conn.owner.HeldBy? && conn.owner.ex in w.exs && !w.exs[conn.owner.ex].unheld)
  }

  lemma KeptUnlessMarked(w: World, c: ConnId)
    requires Inv(w) && c in w.conns
    ensures Kept(w, c) <==> !IsLost(w, c) && !IsOrphan(w, c)
    ensures w.conns[c].owner.HeldBy? || w.conns[c].owner.Idle? ==> (w.conns[c].open <==> !IsSpoiled(w, c))
  {
    assert ConnOk(w, c);
    hide Inv, WireOk, QueueOk;
  }

  /** In every run and for every connection: it leaks exactly when a re-sent request failed on it before
      its body was tracked, or its body was left to nobody and has not settled since. */
  lemma LeaksExactlyWhen(start: World, actions: seq<Action>, end: World, c: ConnId)
    requires Untouched(start) && Run(start, actions, end) && c in end.conns
    ensures Kept(end, c) <==> !Happens(start, actions, c, Loss) && !LeftUnread(start, actions, c)
  {
    hide Inv, Run, Happens, LeftUnread, Kept;
    InitOk(start.strict, start.tlsAlpn, start.http2, start.pool.maxPerKey, start.pool.maxTotal);
    RunKeeps(start, actions, end);
    MarkedExactlyWhen(start, actions, end, c);
    KeptUnlessMarked(end, c);
  }

  /** In every run, a held or idle connection is closed exactly when building a response threw on it,
      other than the response to a re-sent request. */
  lemma ShutExactlyWhen(start: World, actions: seq<Action>, end: World, c: ConnId)
    requires Untouched(start) && Run(start, actions, end) && c in end.conns
    requires end.conns[c].owner.HeldBy? || end.conns[c].owner.Idle?
    ensures end.conns[c].open <==> !Happens(start, actions, c, Spoiling)
  {
    hide Inv, Run, Happens, LeftUnread, Kept;
    InitOk(start.strict, start.tlsAlpn, start.http2, start.pool.maxPerKey, start.pool.maxTotal);
    RunKeeps(start, actions, end);
    MarkedExactlyWhen(start, actions, end, c);
    KeptUnlessMarked(end, c);
  }
}
