/** What one step of an exchange changes in the client, and what it leaves alone. */
module Steps {
  import opened Wrappers
  import opened Shelves
  import opened Registry
  import opened Negotiation
  import opened Protocol
  import opened Safety

  /** The options, the closed flag and every other exchange are as they were. */
  ghost predicate LeavesOthers(w: World, w': World, e: ExId) {
    && w'.strict == w.strict && w'.tlsAlpn == w.tlsAlpn && w'.http2 == w.http2 && w'.closed == w.closed
    && e in w'.exs && w'.exs == w.exs[e := w'.exs[e]]
  }

  /** The collections too, and no connection is new. */
  ghost predicate OpensNothing(w: World, w': World) {
    w'.registry == w.registry && w'.conns.Keys == w.conns.Keys
  }

  lemma FromPoolLeaves(w: World, e: ExId, expired: nat)
    requires e in w.exs
    ensures
      var w' := FromPool(w, e, expired);
      LeavesOthers(w, w', e) && OpensNothing(w, w') && w'.inflight == w.inflight
  {
    assert w.exs == w.exs[e := w.exs[e]];
    hide Listed, Tickets.Take;
  }

  /** Where an exchange that fell through to the pool finds itself. */
  lemma FromPoolGoes(w: World, e: ExId, expired: nat)
    requires e in w.exs && e in FromPool(w, e, expired).exs
    ensures
      var x := FromPool(w, e, expired).exs[e];
      && x == w.exs[e].(phase := x.phase, attempt := x.attempt, live := x.live, writes := x.writes)
      && (x.phase.Opening? || x.phase.Failed? || x.phase == w.exs[e].phase || (x.phase.Writing? && x.phase.via.Pooled?))
      && (w.pool.closed ==> x.phase.Failed?)
  {
    hide FromPool;
    FromPoolSame(w, e, expired);
    FromPoolPhase(w, e, expired);
  }

  lemma DialSame(w: World, e: ExId, phase: Phase, expired: nat)
    requires e in w.exs
    ensures Dial(w, e, phase, expired).exs == w.exs[e := w.exs[e].(phase := phase)]
  {
    hide Tickets.Take;
  }

  lemma FromPoolSame(w: World, e: ExId, expired: nat)
    requires e in w.exs && e in FromPool(w, e, expired).exs
    ensures
      var x := FromPool(w, e, expired).exs[e];
      x == w.exs[e].(phase := x.phase, attempt := x.attempt, live := x.live, writes := x.writes)
  {
    if !Shelves.Take(w.pool, w.exs[e].key).1.Hit? {
      MissSame(w, e, expired);
    } else {
      hide Shelves.Take, Dial, SetPhase, Carrying;
    }
    hide FromPool;
  }

  lemma MissSame(w: World, e: ExId, expired: nat)
    requires e in w.exs && !Shelves.Take(w.pool, w.exs[e].key).1.Hit?
    ensures
      var w' := FromPool(w, e, expired);
      w'.exs == w.exs[e := w.exs[e].(phase := if w.pool.closed then Failed else Opening)]
  {
    DialSame(w.(pool := Shelves.Take(w.pool, w.exs[e].key).0), e, Opening, expired);
    ClosedTakes(w.pool, w.exs[e].key);
    hide Shelves.Take, Dial;
  }

  lemma FromPoolPhase(w: World, e: ExId, expired: nat)
    requires e in w.exs && e in FromPool(w, e, expired).exs
    ensures
      var x := FromPool(w, e, expired).exs[e];
      && (x.phase.Opening? || x.phase.Failed? || x.phase == w.exs[e].phase || (x.phase.Writing? && x.phase.via.Pooled?))
      && (w.pool.closed ==> x.phase.Failed?)
  {
    hide Shelves.Take, Tickets.Take, Carrying;
    assert w.pool.closed <==> Shelves.Take(w.pool, w.exs[e].key).1.PoolClosed? by {
      ClosedTakes(w.pool, w.exs[e].key);
    }
  }

  lemma ClosedTakes(s: Shelf<ConnId>, key: Key)
    ensures s.closed <==> Shelves.Take(s, key).1.PoolClosed?
  {
  }

  lemma GiveBackLeaves(w: World, c: ConnId, eligible: bool)
    requires c in w.conns
    ensures
      var w' := GiveBack(w, c, eligible);
      && w'.exs == w.exs && OpensNothing(w, w') && w'.inflight == w.inflight
      && w'.strict == w.strict && w'.tlsAlpn == w.tlsAlpn && w'.http2 == w.http2 && w'.closed == w.closed
  {
    hide Full, Shelves.Release;
  }

  predicate ByPool(step: Step) {
    step.Start? || step.H2Refused? || step.BodyDone? || step.BodyCancelled?
  }

  /** The connection a step opens, if it is an HTTP/1.1 one. */
  function Connects(step: Step): Option<ConnId> {
    match step
    case Opened(id, pick) => if pick == Some(Http2) then None else Some(id)
    case Redialed(c, _) => Some(c)
    case _ => None
  }

  function Registers(step: Step): Option<H2Id> {
    match step
    case Opened(id, pick) => if pick == Some(Http2) then Some(id) else None
    case _ => None
  }

  function AsSet(c: Option<ConnId>): set<ConnId> {
    match c case None => {} case Some(id) => {id}
  }

  ghost predicate Shape(w: World, w': World, e: ExId, step: Step) {
    && LeavesOthers(w, w', e)
    && w'.conns.Keys == w.conns.Keys + AsSet(Connects(step))
    && match Registers(step)
       case None => w'.registry == w.registry
       case Some(h) => e in w.exs && w'.registry == Registry.Add(w.registry, w.exs[e].key, h)
  }

  /** The eligible flag a settling body hands to pool.release. */
  predicate Eligible(phase: Phase, step: Step) {
    step.BodyDone? && phase.Streaming? && phase.left.Determinate? && phase.keepAlive
  }

  lemma PoolStepLeaves(w: World, e: ExId, step: Step)
    requires CanStep(w, e, step) && ByPool(step)
    ensures LeavesOthers(w, Stepped(w, e, step), e)
    ensures OpensNothing(w, Stepped(w, e, step))
    ensures Stepped(w, e, step).inflight == w.inflight
  {
    hide FromPool, GiveBack;
    if step.Start? {
      var w1 := w.(exs := w.exs[e := Unstarted(step.key)]);
      FromPoolLeaves(w1, e, step.expired);
    } else if step.H2Refused? {
      var w1 := w.(exs := w.exs[e := Disowned(w.exs[e]).(phase := Failed)]);
      FromPoolLeaves(w1, e, step.expired);
    } else {
      GiveBackLeaves(w, w.exs[e].phase.conn, Eligible(w.exs[e].phase, step));
    }
  }

  lemma PhaseStepLeaves(w: World, e: ExId, step: Step)
    requires CanStep(w, e, step)
    requires !ByPool(step) && !step.Opened? && !step.Redialed? && !step.Redial? && !step.Broken? && !step.NeverSaw?
    requires !step.BodyBroke? && !step.HeadRead? && !step.BodyRead?
    ensures Shape(w, Stepped(w, e, step), e, step)
  {
  }

  lemma DialStepLeaves(w: World, e: ExId, step: Step)
    requires CanStep(w, e, step) && (step.Opened? || step.Redialed? || step.Redial?)
    ensures Shape(w, Stepped(w, e, step), e, step)
  {
  }

  lemma DropStepLeaves(w: World, e: ExId, step: Step)
    requires CanStep(w, e, step) && (step.Broken? || step.NeverSaw? || step.BodyBroke?)
    ensures Shape(w, Stepped(w, e, step), e, step)
  {
  }

  lemma ReadStepLeaves(w: World, e: ExId, step: Step)
    requires CanStep(w, e, step) && (step.HeadRead? || step.BodyRead?)
    ensures Shape(w, Stepped(w, e, step), e, step)
  {
    if step.HeadRead? {
      ReadHeadParts(w, e, step.throws);
      ReadHeadConn(w, e, step.throws);
      hide ReadHead;
    }
  }

  lemma StepLeaves(w: World, e: ExId, step: Step)
    requires CanStep(w, e, step)
    ensures Shape(w, Stepped(w, e, step), e, step)
  {
    if ByPool(step) {
      PoolStepLeaves(w, e, step);
      hide Stepped, LeavesOthers;
    } else if step.Opened? || step.Redialed? || step.Redial? {
      DialStepLeaves(w, e, step);
    } else if step.Broken? || step.NeverSaw? || step.BodyBroke? {
      DropStepLeaves(w, e, step);
    } else if step.HeadRead? || step.BodyRead? {
      ReadStepLeaves(w, e, step);
    } else {
      PhaseStepLeaves(w, e, step);
    }
  }

  /** The step takes the last copy of its request for unprocessed. */
  predicate Disowns(step: Step) {
    step.H2Refused? || step.NeverSaw?
  }

  /** The head that is read declares a body the Response will not have. */
  predicate Withheld(w: World, e: ExId, step: Step)
    requires CanStep(w, e, step)
  {
    match step
    case HeadRead(_) => Withholds(w.conns[w.exs[e].phase.conn].wire[0])
    case H2Answered(_, withholds) => withholds
    case _ => false
  }

  predicate Unmarked(x: Exchange) {
    !x.thrown && !x.unheld && !x.stuck
  }

  /** What a step adds to the counts of its exchange, and that an answered exchange stays answered. */
  ghost predicate Counts(w: World, w': World, e: ExId, step: Step)
    requires CanStep(w, e, step)
  {
    && e in w'.exs
    && if e !in w.exs
       then w'.exs[e].proofs == 0 && w'.exs[e].slips == 0 && Unmarked(w'.exs[e]) && !Answered(w'.exs[e].phase)
       else
         var x, x' := w.exs[e], w'.exs[e];
         && x'.proofs == x.proofs + (if Disowns(step) then 1 else 0)
         && x'.slips == x.slips + (if Disowns(step) && x.live then 1 else 0)
         && x'.thrown == (if step.HeadRead? || step.H2Answered? then step.throws else x.thrown)
         && x'.unheld == (if step.HeadRead? || step.H2Answered? then step.throws || Withheld(w, e, step)
                          else x.unheld || step.GivenUp?)
         && x'.stuck == (x.stuck || step.Sticks?)
         && (Answered(x'.phase) <==> Answered(x.phase) || step.HeadRead? || step.H2Answered?)
  }

  lemma PoolStepCounts(w: World, e: ExId, step: Step)
    requires CanStep(w, e, step) && ByPool(step)
    ensures Counts(w, Stepped(w, e, step), e, step)
  {
    hide FromPool, GiveBack;
    if step.Start? {
      var w1 := w.(exs := w.exs[e := Unstarted(step.key)]);
      FromPoolLeaves(w1, e, step.expired);
      FromPoolGoes(w1, e, step.expired);
    } else if step.H2Refused? {
      var w1 := w.(exs := w.exs[e := Disowned(w.exs[e]).(phase := Failed)]);
      FromPoolLeaves(w1, e, step.expired);
      FromPoolGoes(w1, e, step.expired);
    } else {
      GiveBackLeaves(w, w.exs[e].phase.conn, Eligible(w.exs[e].phase, step));
    }
    hide LeavesOthers, OpensNothing;
  }

  lemma ReadStepCounts(w: World, e: ExId, step: Step)
    requires CanStep(w, e, step) && (step.HeadRead? || step.BodyRead?)
    ensures Counts(w, Stepped(w, e, step), e, step)
  {
    if step.HeadRead? {
      ReadHeadParts(w, e, step.throws);
    }
    hide ReadHead;
  }

  lemma HoldingStepCounts(w: World, e: ExId, step: Step)
    requires CanStep(w, e, step) && !ByPool(step) && Holding(w.exs[e].phase).Some?
    requires !step.HeadRead? && !step.BodyRead?
    ensures Counts(w, Stepped(w, e, step), e, step)
  {
    hide ReadHead, ReadBody, Connected, Dial, DispatchH2, Shelves.Discard;
  }

  lemma ConnectStepCounts(w: World, e: ExId, step: Step)
    requires CanStep(w, e, step) && (step.Opened? || step.Redialed?)
    ensures Counts(w, Stepped(w, e, step), e, step)
  {
    hide ReadHead, ReadBody, Drop, Abandon, Begin, FromPool, GiveBack, Dial, Registry.Add, Shelves.Discard;
  }

  lemma RedialCounts(w: World, e: ExId, step: Step)
    requires CanStep(w, e, step) && step.Redial?
    ensures Counts(w, Stepped(w, e, step), e, step)
  {
    DialSame(w, e, Redialing(w.exs[e].phase.spent), step.expired);
    hide Dial;
  }

  lemma OpenFailedCounts(w: World, e: ExId)
    requires CanStep(w, e, OpenFailed)
    ensures Counts(w, Stepped(w, e, OpenFailed), e, OpenFailed)
  {
    hide Shelves.Discard;
  }

  lemma FreeStepCounts(w: World, e: ExId, step: Step)
    requires CanStep(w, e, step) && !ByPool(step) && Holding(w.exs[e].phase).None?
    requires !step.Opened? && !step.Redialed? && !step.Redial? && !step.OpenFailed?
    ensures Counts(w, Stepped(w, e, step), e, step)
  {
    hide ReadHead, ReadBody, Drop, Abandon, Begin, FromPool, GiveBack, Tickets.Take, Registry.Add;
    hide Shelves.Discard;
  }

  lemma StepCounts(w: World, e: ExId, step: Step)
    requires CanStep(w, e, step)
    ensures Counts(w, Stepped(w, e, step), e, step)
  {
    hide Stepped, Counts, Ready;
    if ByPool(step) {
      PoolStepCounts(w, e, step);
    } else if step.HeadRead? || step.BodyRead? {
      ReadStepCounts(w, e, step);
    } else if Holding(w.exs[e].phase).Some? {
      HoldingStepCounts(w, e, step);
    } else if step.Opened? || step.Redialed? {
      ConnectStepCounts(w, e, step);
    } else if step.Redial? {
      RedialCounts(w, e, step);
    } else if step.OpenFailed? {
      OpenFailedCounts(w, e);
    } else {
      FreeStepCounts(w, e, step);
    }
  }

  /** What a peer does, and close(): no exchange changes but for being processed, none is new, and
      neither is a connection. */
  lemma PeerLeaves(w: World, a: Action)
    requires Enabled(w, a) && !a.By?
    ensures
      var w' := Next(w, a);
      && w'.strict == w.strict && w'.tlsAlpn == w.tlsAlpn && w'.http2 == w.http2
      && w'.closed == (w.closed || a.Close?)
      && w'.exs.Keys == w.exs.Keys && w'.inflight == w.inflight
      && (forall e <- w.exs :: w'.exs[e] == w.exs[e] || w'.exs[e] == Processed(w.exs[e]))
  {
    hide Shelves.CloseAll, Registry.CloseAll;
  }

  /** Connections keep their mark and their owner, but that close() takes the idle ones. */
  lemma PeerConns(w: World, a: Action)
    requires Enabled(w, a) && !a.By?
    ensures
      var w' := Next(w, a);
      && w'.conns.Keys == w.conns.Keys
      && (forall c <- w.conns ::
            && w'.conns[c].spoiled == w.conns[c].spoiled
            && (w'.conns[c].owner == w.conns[c].owner || (w.conns[c].owner.Idle? && w'.conns[c].owner.Closed?)))
  {
    if a.On? {
      ServedPlaces(w, a.c, a.event);
    }
    hide Served, Shelves.CloseAll, Registry.CloseAll, Tickets.Put;
  }
}
