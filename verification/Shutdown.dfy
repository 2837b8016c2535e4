/** What can still happen on a client that has been closed. */
module Shutdown {
  import opened Wrappers
  import opened Registry
  import opened Protocol
  import opened Safety
  import opened Steps
  import opened Leaks

  lemma EmptyWhenClosed(w: World)
    requires Inv(w) && w.closed
    ensures w.pool.closed && w.pool.lists == map[] && w.store.held == map[]
  {
    assert PoolOk(w);
  }

  lemma ClosedStays(w: World, a: Action)
    requires Enabled(w, a)
    ensures Next(w, a).closed == (w.closed || a.Close?)
  {
    if a.By? {
      StepLeaves(w, a.e, a.step);
      hide Stepped;
    } else {
      PeerLeaves(w, a);
      hide Next;
    }
  }

  // ---------------------------------------------------------------- HTTP/2 connections

  predicate RegistersIt(a: Action, h: H2Id) {
    a.By? && Registers(a.step) == Some(h)
  }

  predicate RemovesIt(a: Action, h: H2Id) {
    a == GoesAway(h) || a == Dies(h) || a == Close
  }

  predicate Survives(actions: seq<Action>, h: H2Id) {
    actions != [] ==> !RemovesIt(actions[0], h) && Survives(actions[1..], h)
  }

  /** h is registered in the run, and afterwards neither dies nor is told to go away, nor is the client
      closed. */
  predicate RegisteredIn(actions: seq<Action>, h: H2Id) {
    actions != [] &&
    ((RegistersIt(actions[0], h) && Survives(actions[1..], h)) || RegisteredIn(actions[1..], h))
  }

  lemma NextInSet(w: World, a: Action, h: H2Id)
    requires Enabled(w, a)
    ensures h in Next(w, a).registry.all <==> (h in w.registry.all && !RemovesIt(a, h)) || RegistersIt(a, h)
  {
    if a.By? {
      StepLeaves(w, a.e, a.step);
      hide Stepped;
    }
  }

  lemma {:induction false} SetAfter(w: World, actions: seq<Action>, end: World, h: H2Id)
    requires Run(w, actions, end)
    ensures h in end.registry.all <==> (h in w.registry.all && Survives(actions, h)) || RegisteredIn(actions, h)
    decreases |actions|
  {
    if actions != [] {
      hide Next, RegistersIt, RemovesIt;
      NextInSet(w, actions[0], h);
      SetAfter(Next(w, actions[0]), actions[1..], end, h);
    }
  }

  /** After close(), whatever else happens, the live connections of the client that were not told to go
      away are exactly those that finished opening afterwards and have neither died nor been told to go
      away nor been closed by another close(). */
  lemma LateConnections(w: World, actions: seq<Action>, end: World, h: H2Id)
    requires Reachable(w) && Run(Next(w, Close), actions, end)
    ensures h in end.registry.all <==> RegisteredIn(actions, h)
    ensures h in end.registry.all <==>
              h in end.registry.known && end.registry.known[h].alive && !end.registry.known[h].goingAway
  {
    hide RegisteredIn, Survives, Inv;
    ReachableInv(w);
    NextKeeps(w, Close);
    RunKeeps(Next(w, Close), actions, end);
    SetAfter(Next(w, Close), actions, end, h);
    hide Run, Reachable;
    assert Consistent(end.registry) by {
      InvRegistry(end);
    }
  }

  lemma InvRegistry(w: World)
    requires Inv(w)
    ensures Consistent(w.registry)
  {
  }

  // ---------------------------------------------------------------- who can still open one

  predicate Opens(step: Step) {
    Connects(step).Some? || Registers(step).Some?
  }

  /** The exchange is dialling, or is about to, or is on a pooled connection on which nothing has come
      back but what passes for nothing. */
  predicate MayStillOpen(w: World, e: ExId) {
    e in w.exs &&
    match w.exs[e].phase
    case Opening => true
    case Discarding(_) => true
    case Redialing(_) => true
    case Writing(c, via) => via.Pooled? && c in w.conns && NothingSeen(w.conns[c])
    case Reading(c, via) => via.Pooled? && c in w.conns && NothingSeen(w.conns[c])
    case _ => false
  }

  predicate NothingSeen(conn: Conn) {
    conn.wire == [] || (conn.wire[0].Torn? && conn.wire[0].silent)
  }

  lemma OpenersMayOpen(w: World, e: ExId, step: Step)
    requires CanStep(w, e, step) && Opens(step)
    ensures MayStillOpen(w, e)
  {
  }

  /** An exchange that moves nothing of e's. */
  ghost predicate SameFor(w: World, w': World, e: ExId) {
    && (e in w'.exs ==> e in w.exs && w'.exs[e].phase == w.exs[e].phase)
    && (e in w.exs && Holding(w.exs[e].phase).Some? && Holding(w.exs[e].phase).value in w'.conns ==>
          var c := Holding(w.exs[e].phase).value;
          c in w.conns && (NothingSeen(w'.conns[c]) ==> NothingSeen(w.conns[c])))
  }

  lemma SameForStays(w: World, w': World, e: ExId)
    requires SameFor(w, w', e) && MayStillOpen(w', e)
    ensures MayStillOpen(w, e)
  {
    hide NothingSeen;
  }

  /** Another's step, or a peer's. */
  lemma OthersSame(w: World, a: Action, e: ExId)
    requires Inv(w) && Enabled(w, a) && !(a.By? && a.e == e)
    ensures SameFor(w, Next(w, a), e)
  {
    hide Inv;
    if e in w.exs && Holding(w.exs[e].phase).Some? {
      HeldConn(w, e);
    }
    if a.By? {
      StepLeaves(w, a.e, a.step);
      if e in w.exs && Holding(w.exs[e].phase).Some? {
        OthersConnStays(w, a.e, a.step, Holding(w.exs[e].phase).value);
      }
      hide Stepped, ConnOk;
    } else {
      hide ConnOk;
      PeerLeaves(w, a);
      PeerWire(w, a);
      hide Next;
    }
  }

  lemma PeerWire(w: World, a: Action)
    requires Enabled(w, a) && !a.By?
    ensures forall c <- w.conns :: c in Next(w, a).conns && (NothingSeen(Next(w, a).conns[c]) ==> NothingSeen(w.conns[c]))
  {
    if a.On? {
      OneWire(w, a.c, a.event);
    }
    hide Shelves.CloseAll, Registry.CloseAll, Served, GoAway, Die, Tickets.Put;
  }

  lemma OneWire(w: World, c: ConnId, event: Event)
    requires Enabled(w, On(c, event))
    ensures
      var w' := Served(w, c, event);
      && w'.conns == w.conns[c := w'.conns[c]] && c in w'.conns
      && (NothingSeen(w'.conns[c]) ==> NothingSeen(w.conns[c]))
  {
  }

  /** A step leaves a connection another exchange holds as it is. */
  lemma OthersConnStays(w: World, e: ExId, step: Step, c: ConnId)
    requires Inv(w) && CanStep(w, e, step)
    requires c in w.conns && w.conns[c].owner.HeldBy? && w.conns[c].owner.ex != e
    ensures c in Stepped(w, e, step).conns && Stepped(w, e, step).conns[c] == w.conns[c]
  {
    hide Inv;
    if step.Start? || step.H2Refused? {
      var x := if step.Start? then Unstarted(step.key) else Disowned(w.exs[e]).(phase := Failed);
      FromPoolConns(w, w.(exs := w.exs[e := x]), e, step.expired);
    } else {
      if Holding(w.exs[e].phase).Some? {
        HeldConn(w, e);
      }
      if ByPool(step) {
        GiveBackElsewhere(w, e, Eligible(w.exs[e].phase, step), c);
      } else {
        hide ConnOk;
        OtherConnsStay(w, e, step, c);
      }
    }
    hide FromPool, GiveBack, ConnOk;
  }

  lemma GiveBackElsewhere(w: World, e: ExId, eligible: bool, d: ConnId)
    requires Inv(w) && e in w.exs && w.exs[e].phase.Streaming? && w.exs[e].phase.conn in w.conns
    requires d in w.conns && w.conns[d].owner.HeldBy? && d != w.exs[e].phase.conn
    ensures GiveBack(w, w.exs[e].phase.conn, eligible).conns.Keys == w.conns.Keys
    ensures GiveBack(w, w.exs[e].phase.conn, eligible).conns[d] == w.conns[d]
  {
    var c := w.exs[e].phase.conn;
    var victim := Victim(w.pool, w.conns[c].key, eligible);
    hide Inv, ConnOk;
    GiveBackTouches(w, c, eligible);
    if victim.Some? {
      VictimIdle(w, w.conns[c].key, victim.value);
    }
    hide GiveBack, Victim;
  }

  lemma OwnStepMayOpen(w: World, e: ExId, step: Step)
    requires CanStep(w, e, step) && w.pool.closed && MayStillOpen(Stepped(w, e, step), e)
    ensures MayStillOpen(w, e)
  {
    if ByPool(step) {
      PoolStepOpensNot(w, e, step);
      hide Stepped;
    } else if Holding(w.exs[e].phase).Some? {
      HoldingStepOpensNot(w, e, step);
      hide Stepped;
    } else {
      hide FromPool, GiveBack, ReadHead, ReadBody, Drop, Abandon;
    }
  }

  lemma PoolStepOpensNot(w: World, e: ExId, step: Step)
    requires CanStep(w, e, step) && w.pool.closed && ByPool(step)
    ensures !MayStillOpen(Stepped(w, e, step), e)
  {
    if step.Start? || step.H2Refused? {
      var x := if step.Start? then Unstarted(step.key) else Disowned(w.exs[e]).(phase := Failed);
      FromPoolLeaves(w.(exs := w.exs[e := x]), e, step.expired);
      FromPoolGoes(w.(exs := w.exs[e := x]), e, step.expired);
    }
    hide FromPool, GiveBack;
  }

  lemma HoldingStepOpensNot(w: World, e: ExId, step: Step)
    requires CanStep(w, e, step) && !ByPool(step) && Holding(w.exs[e].phase).Some?
    requires MayStillOpen(Stepped(w, e, step), e)
    ensures MayStillOpen(w, e)
  {
    if step.HeadRead? {
      ReadHeadParts(w, e, step.throws);
    }
    hide FromPool, GiveBack, ReadHead, Connected, Dial, Shelves.Discard, Withholds, AtEnd;
  }

  lemma NextOpenersWere(w: World, a: Action, e: ExId)
    requires Inv(w) && w.closed && Enabled(w, a) && MayStillOpen(Next(w, a), e)
    ensures MayStillOpen(w, e)
  {
    hide Inv, Stepped, MayStillOpen, SameFor;
    if a.By? && a.e == e {
      EmptyWhenClosed(w);
      OwnStepMayOpen(w, e, a.step);
    } else {
      OthersSame(w, a, e);
      SameForStays(w, Next(w, a), e);
    }
  }

  /** In the run, e opens a connection. */
  predicate OpensOne(actions: seq<Action>, e: ExId) {
    exists i :: 0 <= i < |actions| && actions[i].By? && actions[i].e == e && Opens(actions[i].step)
  }

  lemma {:induction false} OnlyTheseOpen(w: World, actions: seq<Action>, end: World, e: ExId)
    requires Inv(w) && w.closed && Run(w, actions, end) && OpensOne(actions, e)
    ensures MayStillOpen(w, e)
    decreases |actions|
  {
    var i :| 0 <= i < |actions| && actions[i].By? && actions[i].e == e && Opens(actions[i].step);
    hide Inv, MayStillOpen, Next, Opens;
    if i == 0 {
      OpenersMayOpen(w, e, actions[0].step);
    } else {
      NextKeeps(w, actions[0]);
      ClosedStays(w, actions[0]);
      assert actions[1..][i - 1] == actions[i];
      OnlyTheseOpen(Next(w, actions[0]), actions[1..], end, e);
      NextOpenersWere(w, actions[0], e);
    }
  }

  ghost predicate CanOpenOne(w: World, e: ExId) {
    exists actions, end :: Run(w, actions, end) && OpensOne(actions, e)
  }

  lemma CanLater(w: World, a: Action, e: ExId)
    requires Enabled(w, a) && CanOpenOne(Next(w, a), e)
    ensures CanOpenOne(w, e)
  {
    hide Next;
    var rest: seq<Action>, end: World :| Run(Next(w, a), rest, end) && OpensOne(rest, e);
    var i :| 0 <= i < |rest| && rest[i].By? && rest[i].e == e && Opens(rest[i].step);
    var actions := [a] + rest;
    assert actions[1..] == rest && actions[i + 1] == rest[i];
    assert Run(w, actions, end) && OpensOne(actions, e);
  }

  lemma CanNow(w: World, e: ExId, step: Step)
    requires CanStep(w, e, step) && Opens(step)
    ensures CanOpenOne(w, e)
  {
    hide Stepped;
    var actions, end := [By(e, step)], Next(w, By(e, step));
    assert actions[1..] == [] && Run(end, [], end);
    assert Run(w, actions, end) && actions[0].By? && OpensOne(actions, e);
  }

  /** Some number that is no key of the map. */
  lemma {:induction false} Unused<T>(m: map<nat, T>) returns (id: nat)
    ensures id !in m
  {
    id := Above(m.Keys);
  }

  lemma {:induction false} Above(s: set<nat>) returns (id: nat)
    ensures forall n <- s :: n < id
    decreases |s|
  {
    if s == {} {
      id := 0;
    } else {
      var n :| n in s;
      var rest := Above(s - {n});
      assert forall m <- s :: m == n || m in s - {n};
      id := if n < rest then rest else n + 1;
    }
  }

  lemma FromRedialing(w: World, e: ExId)
    requires e in w.exs && w.exs[e].phase.Redialing?
    ensures CanOpenOne(w, e)
  {
    var id := Unused(w.conns);
    CanNow(w, e, Redialed(id, None));
  }

  lemma FromDiscarding(w: World, e: ExId)
    requires e in w.exs && w.exs[e].phase.Discarding?
    ensures CanOpenOne(w, e)
  {
    var a := By(e, Redial(0));
    assert e in Next(w, a).exs && Next(w, a).exs[e].phase.Redialing? by {
      hide Tickets.Take;
    }
    hide Next, CanOpenOne;
    FromRedialing(Next(w, a), e);
    CanLater(w, a, e);
  }

  lemma FromReading(w: World, e: ExId)
    requires e in w.exs && w.exs[e].phase.Reading? && MayStillOpen(w, e)
    ensures CanOpenOne(w, e)
  {
    var c := w.exs[e].phase.conn;
    var hangs, saw := On(c, HangsUp), By(e, NeverSaw);
    var w1 := Next(w, hangs);
    assert CanStep(w1, e, NeverSaw);
    assert e in Next(w1, saw).exs && Next(w1, saw).exs[e].phase.Discarding?;
    hide Next, Stepped, CanOpenOne, Served;
    FromDiscarding(Next(w1, saw), e);
    CanLater(w1, saw, e);
    CanLater(w, hangs, e);
  }

  lemma FromWriting(w: World, e: ExId)
    requires e in w.exs && w.exs[e].phase.Writing? && MayStillOpen(w, e)
    ensures CanOpenOne(w, e)
  {
    var a := By(e, WriteDone);
    var w1 := Next(w, a);
    assert e in w1.exs && w1.exs[e].phase.Reading? && MayStillOpen(w1, e);
    hide Next, Stepped, CanOpenOne, MayStillOpen;
    FromReading(w1, e);
    CanLater(w, a, e);
  }

  lemma TheseCanOpen(w: World, e: ExId)
    requires MayStillOpen(w, e)
    ensures CanOpenOne(w, e)
  {
    hide CanOpenOne;
    match w.exs[e].phase
    case Opening =>
      var id := Unused(w.conns);
      CanNow(w, e, Opened(id, None));
    case Redialing(_) => FromRedialing(w, e);
    case Discarding(_) => FromDiscarding(w, e);
    case Writing(_, _) => FromWriting(w, e);
    case Reading(_, _) => FromReading(w, e);
    case _ =>
  }

  /** On a closed client, an exchange can still open a connection exactly when it is dialling, about to
      dial, or on a pooled connection on which nothing has come back but what passes for nothing.  No
      other exchange does in any run, and no exchange that starts later. */
  lemma OpensExactlyWhen(w: World, e: ExId)
    requires Reachable(w) && w.closed
    ensures CanOpenOne(w, e) <==> MayStillOpen(w, e)
  {
    hide Inv, MayStillOpen, Reachable, Run;
    ReachableInv(w);
    if MayStillOpen(w, e) {
      TheseCanOpen(w, e);
    }
    if CanOpenOne(w, e) {
      var actions: seq<Action>, end: World :| Run(w, actions, end) && OpensOne(actions, e);
      OnlyTheseOpen(w, actions, end, e);
    }
  }

  // ---------------------------------------------------------------- new HTTP/1.1 connections

  predicate ConnectsIn(actions: seq<Action>, c: ConnId) {
    exists i :: 0 <= i < |actions| && actions[i].By? && Connects(actions[i].step) == Some(c)
  }

  lemma {:induction false} ConnsAfter(w: World, actions: seq<Action>, end: World, c: ConnId)
    requires Run(w, actions, end)
    ensures c in end.conns <==> c in w.conns || ConnectsIn(actions, c)
    decreases |actions|
  {
    if actions != [] {
      var a, rest := actions[0], actions[1..];
      NextConns(w, a, c);
      hide Next;
      ConnsAfter(Next(w, a), rest, end, c);
      if i :| 0 <= i < |rest| && rest[i].By? && Connects(rest[i].step) == Some(c) {
        assert actions[i + 1] == rest[i];
      }
      if i :| 0 <= i < |actions| && actions[i].By? && Connects(actions[i].step) == Some(c) {
        if i > 0 {
          assert actions[i] == rest[i - 1];
        }
      }
    }
  }

  lemma NextConns(w: World, a: Action, c: ConnId)
    requires Enabled(w, a)
    ensures c in Next(w, a).conns <==> c in w.conns || (a.By? && Connects(a.step) == Some(c))
  {
    if a.By? {
      StepLeaves(w, a.e, a.step);
      hide Stepped;
    } else {
      PeerConns(w, a);
      hide Next;
    }
  }

  /** The HTTP/1.1 connections of a closed client that were not there when it was closed are exactly
      those opened since, and each was opened by an exchange that could still open one when the client
      was closed. */
  lemma NewConnections(w: World, actions: seq<Action>, end: World, c: ConnId)
    requires Reachable(w) && w.closed && Run(w, actions, end) && c !in w.conns
    ensures c in end.conns <==> ConnectsIn(actions, c)
    ensures c in end.conns ==>
              exists e, pick ::
                MayStillOpen(w, e) && (By(e, Opened(c, pick)) in actions || By(e, Redialed(c, pick)) in actions)
  {
    hide Inv, MayStillOpen, Reachable, Run;
    ReachableInv(w);
    ConnsAfter(w, actions, end, c);
    if c in end.conns {
      var i :| 0 <= i < |actions| && actions[i].By? && Connects(actions[i].step) == Some(c);
      assert Opens(actions[i].step) && OpensOne(actions, actions[i].e);
      OnlyTheseOpen(w, actions, end, actions[i].e);
      assert actions[i] in actions;
    }
  }

  /** After close() no exchange reaches openFreshAndSend that had not reached it, and nothing is stored:
      the pool and the ticket store stay empty. */
  lemma ClosedStoresNothing(w: World, a: Action)
    requires Reachable(w) && w.closed && Enabled(w, a)
    ensures Next(w, a).closed
    ensures forall e <- Next(w, a).exs :: Next(w, a).exs[e].phase.Opening? ==>
              e in w.exs && w.exs[e].phase.Opening?
    ensures Next(w, a).pool.lists == map[] && Next(w, a).store.held == map[]
  {
    hide Reachable, Inv;
    ReachableInv(w);
    NextKeeps(w, a);
    ClosedStays(w, a);
    EmptyWhenClosed(Next(w, a));
    EmptyWhenClosed(w);
    if a.By? {
      StepLeaves(w, a.e, a.step);
      OpeningWas(w, a.e, a.step);
      hide Stepped;
    } else {
      PeerLeaves(w, a);
      hide Next;
    }
  }

  lemma ReadingOpeningWas(w: World, e: ExId, step: Step)
    requires CanStep(w, e, step) && (step.HeadRead? || step.BodyRead?) && e in Stepped(w, e, step).exs
    ensures !Stepped(w, e, step).exs[e].phase.Opening?
  {
    if step.HeadRead? {
      ReadHeadParts(w, e, step.throws);
    }
    hide ReadHead;
  }

  lemma HoldingOpeningWas(w: World, e: ExId, step: Step)
    requires CanStep(w, e, step) && !ByPool(step) && Holding(w.exs[e].phase).Some? && e in Stepped(w, e, step).exs
    ensures !Stepped(w, e, step).exs[e].phase.Opening?
  {
    if step.HeadRead? || step.BodyRead? {
      ReadingOpeningWas(w, e, step);
      hide Stepped;
    } else {
      hide FromPool, GiveBack, ReadHead, ReadBody, Connected, Dial, DispatchH2, Shelves.Discard;
    }
  }

  lemma FreeOpeningWas(w: World, e: ExId, step: Step)
    requires CanStep(w, e, step) && !ByPool(step) && Holding(w.exs[e].phase).None? && e in Stepped(w, e, step).exs
    ensures !Stepped(w, e, step).exs[e].phase.Opening?
  {
    if step.Redial? {
      DialSame(w, e, Redialing(w.exs[e].phase.spent), step.expired);
    }
    hide FromPool, GiveBack, ReadHead, ReadBody, Drop, Abandon, Dial, Shelves.Discard, Registry.Add;
  }

  lemma OpeningWas(w: World, e: ExId, step: Step)
    requires CanStep(w, e, step) && w.pool.closed && e in Stepped(w, e, step).exs
    ensures !Stepped(w, e, step).exs[e].phase.Opening?
  {
    if ByPool(step) {
      PoolStepOpensNot(w, e, step);
      hide Stepped;
    } else if Holding(w.exs[e].phase).Some? {
      HoldingOpeningWas(w, e, step);
      hide Stepped;
    } else {
      FreeOpeningWas(w, e, step);
      hide Stepped;
    }
  }
}
