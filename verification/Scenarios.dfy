/** Runs of the protocol that show where the program does less than its comments promise.  Each lemma
    builds one run, step by step, from a client nothing has happened to. */
module Scenarios {
  import opened Wrappers
  import opened Shelves
  import opened Registry
  import opened Tickets
  import opened Protocol
  import opened Negotiation
  import opened Safety
  import opened Steps
  import opened Leaks
  import HR = HeadReader
  import TT = Tears
  import G = Graceful

  const ORIGIN: Key := "https://origin"

  lemma {:induction false} RunOneMore(w: World, actions: seq<Action>, mid: World, a: Action)
    requires Run(w, actions, mid) && Enabled(mid, a)
    ensures Run(w, actions + [a], Next(mid, a))
    decreases |actions|
  {
    hide Next;
    if actions == [] {
      assert [a][1..] == [];
      assert actions + [a] == [a];
    } else {
      RunOneMore(Next(w, actions[0]), actions[1..], mid, a);
      assert (actions + [a])[1..] == actions[1..] + [a];
    }
  }

  lemma Do(w: World, a: Action) returns (w': World)
    requires Reachable(w) && Enabled(w, a)
    ensures w' == Next(w, a) && Reachable(w')
  {
    w' := Next(w, a);
    var start, actions :| Untouched(start) && Run(start, actions, w);
    hide Next;
    RunOneMore(start, actions, w, a);
  }

  lemma Beginning(tlsAlpn: Option<Offer>) returns (w: World)
    ensures Reachable(w) && w == Init(false, tlsAlpn, true, 6, 24)
  {
    w := Init(false, tlsAlpn, true, 6, 24);
    assert Untouched(w) && Run(w, [], w);
  }

  /** An open client of default sizes that has used nothing but its pool so far. */
  ghost predicate Plain(w: World) {
    && !w.closed && !w.strict
    && w.pool == Empty<ConnId>(6, 24).(stats := w.pool.stats, shut := w.pool.shut, lists := w.pool.lists)
    && w.registry == NoConnections() && w.store == NoTickets()
  }

  lemma FirstSent(tlsAlpn: Option<Offer>) returns (w: World)
    ensures Reachable(w) && Plain(w) && w.tlsAlpn == tlsAlpn && w.http2 && w.pool.lists == map[]
    ensures w.exs.Keys == {0} && w.exs[0].key == ORIGIN && w.exs[0].phase == Writing(0, Fresh)
    ensures w.exs[0].attempt == OnH1(0) && !w.exs[0].live && Unmarked(w.exs[0])
    ensures w.conns.Keys == {0} && w.conns[0] == Carrying(NewConn(ORIGIN, None), 0)
    ensures w.inflight == {}
  {
    hide Reachable;
    var w0 := Beginning(tlsAlpn);
    var w1 := Do(w0, By(0, Start(ORIGIN, true, 0)));
    w := Do(w1, By(0, Opened(0, None)));
  }

  lemma Asked(tlsAlpn: Option<Offer>) returns (w: World)
    ensures Reachable(w) && Plain(w) && w.tlsAlpn == tlsAlpn && w.http2 && w.pool.lists == map[]
    ensures w.exs.Keys == {0} && w.exs[0].key == ORIGIN && w.exs[0].phase == Reading(0, Fresh)
    ensures w.conns.Keys == {0}
    ensures w.conns[0] == NewConn(ORIGIN, None).(owner := HeldBy(0), answer := Working(0))
    ensures w.inflight == {} && Unmarked(w.exs[0])
  {
    hide Reachable;
    var w2 := FirstSent(tlsAlpn);
    var w3 := Do(w2, By(0, WriteDone));
    w := Do(w3, On(0, Takes));
  }

  /** The first request of a client, on connection 0, with its whole response on the wire. */
  lemma Answered(tlsAlpn: Option<Offer>) returns (w: World)
    ensures Reachable(w) && Plain(w) && w.tlsAlpn == tlsAlpn && w.http2 && w.pool.lists == map[]
    ensures w.exs.Keys == {0} && w.exs[0].key == ORIGIN && w.exs[0].phase == Reading(0, Fresh)
    ensures w.conns.Keys == {0}
    ensures w.conns[0] == NewConn(ORIGIN, None).(owner := HeldBy(0), wire := [Head(0, 200, Determinate(0), true)])
    ensures w.inflight == {} && Unmarked(w.exs[0])
  {
    hide Reachable;
    var w4 := Asked(tlsAlpn);
    w := Do(w4, On(0, Answers(200, Determinate(0), true)));
  }

  /** The response read and given back: connection 0 is idle, as the pool wants it. */
  ghost predicate Warm(w: World) {
    && Reachable(w) && Plain(w)
    && w.exs.Keys == {0} && w.exs[0].phase == Settled
    && w.conns.Keys == {0} && w.conns[0] == NewConn(ORIGIN, None).(owner := Idle)
    && w.pool.lists == map[ORIGIN := [0]]
  }

  lemma Read(tlsAlpn: Option<Offer>) returns (w: World)
    ensures Reachable(w) && Plain(w) && w.tlsAlpn == tlsAlpn && w.http2 && w.pool.lists == map[]
    ensures w.exs.Keys == {0} && w.exs[0].phase == Streaming(0, Determinate(0), true) && w.inflight == {0}
    ensures Unmarked(w.exs[0])
    ensures w.conns.Keys == {0} && w.conns[0] == NewConn(ORIGIN, None).(owner := HeldBy(0))
  {
    hide Reachable;
    var w5 := Answered(tlsAlpn);
    w := Do(w5, By(0, HeadRead(false)));
    assert w.conns[0].wire == [];
  }

  lemma WarmedUp(tlsAlpn: Option<Offer>) returns (w: World)
    ensures Warm(w) && w.tlsAlpn == tlsAlpn && w.http2
  {
    hide Reachable, Contents;
    var w6 := Read(tlsAlpn);
    ContentsPut<ConnId>(map[], "", []);
    w := Do(w6, By(0, BodyDone));
    assert Listed<ConnId>(map[], ORIGIN) + [0] == [0];
  }

  /** A response with a coding nobody can decode, and no body, spoils its connection: it is closed
      and then put in the pool. */
  lemma IdleButClosed() returns (w: World)
    ensures Reachable(w) && IdleIn(w.pool.lists, ORIGIN, 0) && 0 in w.conns && !w.conns[0].open
  {
    hide Reachable, Contents;
    var w5 := Answered(None);
    var w6 := Do(w5, By(0, HeadRead(true)));
    ContentsPut<ConnId>(map[], "", []);
    w := Do(w6, By(0, BodyDone));
  }

  /** Request 1 on the warm connection, written. */
  lemma Reused(tlsAlpn: Option<Offer>) returns (w: World)
    ensures Reachable(w) && Plain(w) && w.tlsAlpn == tlsAlpn && w.http2
    ensures w.exs.Keys == {0, 1} && w.exs[1].key == ORIGIN && w.exs[1].phase == Reading(0, Pooled)
    ensures w.exs[1] == Unstarted(ORIGIN).(phase := Reading(0, Pooled), attempt := OnH1(0), writes := 1)
    ensures w.conns.Keys == {0} && w.conns[0] == NewConn(ORIGIN, None).(owner := HeldBy(1), queue := [1])
  {
    hide Reachable, Contents;
    var w7 := WarmedUp(tlsAlpn);
    var w8 := Do(w7, By(1, Start(ORIGIN, true, 0)));
    w := Do(w8, By(1, WriteDone));
  }

  /** The server hangs up instead of answering request 1, having processed it or not. */
  lemma HungUp(tlsAlpn: Option<Offer>, seen: bool) returns (w: World)
    ensures Reachable(w) && Plain(w) && w.tlsAlpn == tlsAlpn && w.http2
    ensures w.exs.Keys == {0, 1} && w.exs[1].key == ORIGIN && w.exs[1].phase == Reading(0, Pooled)
    ensures w.exs[1].live == seen && Unmarked(w.exs[1]) && w.exs[1].processed == if seen then 1 else 0
    ensures w.conns.Keys == {0} && SawNothing(w.conns[0])
  {
    hide Reachable;
    var w9 := Reused(tlsAlpn);
    if seen {
      var text := TT.TornHead();
      assert TT.TearsAfter(text, 65536, HR.Clean) == Event.Tears(true);
      hide HR.CountsAsUnseen, HR.ReadHead, TT.TearsAfter;
      var w10 := Do(w9, On(0, Takes));
      w := Do(w10, On(0, TT.TearsAfter(text, 65536, HR.Clean)));
    } else {
      w := Do(w9, On(0, HangsUp));
    }
  }

  /** The client takes that for a request never seen, and dials for it again. */
  lemma DiallingAgain(tlsAlpn: Option<Offer>, seen: bool) returns (w: World)
    ensures Reachable(w) && Plain(w) && w.tlsAlpn == tlsAlpn && w.http2
    ensures w.exs.Keys == {0, 1} && w.exs[1].key == ORIGIN && w.exs[1].phase == Discarding(0)
    ensures w.exs[1].attempt.Nowhere? && !w.exs[1].live && w.exs[1].processed == if seen then 1 else 0
    ensures Unmarked(w.exs[1])
    ensures w.conns.Keys == {0}
  {
    hide Reachable;
    var w10 := HungUp(tlsAlpn, seen);
    w := Do(w10, By(1, NeverSaw));
  }

  /** Request 1 on a second connection. */
  lemma Resending(tlsAlpn: Option<Offer>, seen: bool, pick: Option<Proto>) returns (w: World)
    requires MayPick(SecondOffer(tlsAlpn), pick)
    ensures Reachable(w) && w.tlsAlpn == tlsAlpn && w.http2
    ensures w.exs.Keys == {0, 1} && w.exs[1].phase == Writing(1, Resent(0)) && w.exs[1].attempt == OnH1(1)
    ensures !w.exs[1].live && Unmarked(w.exs[1]) && w.exs[1].processed == if seen then 1 else 0
    ensures w.conns.Keys == {0, 1} && w.conns[1] == Carrying(NewConn(ORIGIN, pick), 1)
  {
    hide Reachable;
    var w11 := DiallingAgain(tlsAlpn, seen);
    var w12 := Do(w11, By(1, Redial(0)));
    w := Do(w12, By(1, Redialed(1, pick)));
  }

  /** A re-sent request that fails leaves its connection open for ever. */
  lemma LeaksAConnection() returns (w: World)
    ensures Reachable(w) && 1 in w.conns && w.conns[1].open && w.conns[1].owner.Lost?
  {
    hide Reachable;
    var w13 := Resending(None, false, None);
    w := Do(w13, By(1, Broken));
  }

  /** A response torn after a whole line makes the client send a request again that the server has
      already processed, and may process a second time. */
  lemma ProcessesTwice() returns (w: World)
    ensures Reachable(w) && 1 in w.exs && w.exs[1].processed == 2
  {
    hide Reachable;
    var w13 := Resending(None, true, None);
    w := Do(w13, On(1, Takes));
  }

  /** Building the response to a re-sent request throws: its connection stays open, held by a body
      nobody was handed. */
  lemma LeavesABodyUnread() returns (w: World)
    ensures Reachable(w) && 1 in w.conns && w.conns[1].open && w.conns[1].owner == HeldBy(1)
    ensures 1 in w.exs && w.exs[1].phase == Streaming(1, Determinate(5), true) && w.exs[1].thrown && w.exs[1].unheld
    ensures !w.exs[1].stuck && w.exs[1].got != []
    ensures w.conns[1] == NewConn(ORIGIN, None).(owner := HeldBy(1), answer := Sending(1, Determinate(5)))
    ensures !Kept(w, 1)
  {
    hide Reachable;
    var w16 := AnsweredAgain();
    w := Do(w16, By(1, HeadRead(true)));
    assert w.conns[1].wire == [];
  }

  /** A response with a body of five, on the wire of the second connection. */
  lemma AnsweredAgain() returns (w: World)
    ensures Reachable(w) && w.exs.Keys == {0, 1} && w.exs[1].phase == Reading(1, Resent(0))
    ensures 1 in w.conns && Unmarked(w.exs[1])
    ensures w.conns[1] == NewConn(ORIGIN, None).(owner := HeldBy(1), wire := [Head(1, 200, Determinate(5), true)],
                                                 answer := Sending(1, Determinate(5)))
  {
    hide Reachable;
    var w13 := Resending(None, false, None);
    var w15 := TakenUp(w13);
    w := Do(w15, On(1, Answers(200, Determinate(5), true)));
  }

  /** The re-sent request is written, and its server takes it up. */
  lemma TakenUp(w13: World) returns (w: World)
    requires Reachable(w13) && w13.exs.Keys == {0, 1} && w13.exs[1].phase == Writing(1, Resent(0)) && Unmarked(w13.exs[1])
    requires 1 in w13.conns && w13.conns[1] == Carrying(NewConn(ORIGIN, None), 1)
    ensures Reachable(w) && w.exs.Keys == {0, 1} && w.exs[1].phase == Reading(1, Resent(0)) && Unmarked(w.exs[1])
    ensures 1 in w.conns && w.conns[1] == NewConn(ORIGIN, None).(owner := HeldBy(1), answer := Working(1))
  {
    hide Reachable;
    var w14 := Do(w13, By(1, WriteDone));
    w := Do(w14, On(1, Takes));
  }

  /** A request is being written as HTTP/1.1 to a connection whose server picked HTTP/2. */
  ghost predicate SpeaksWrong(w: World) {
    exists e, c ::
      && e in w.exs && w.exs[e].phase.Writing? && w.exs[e].phase.conn == c
      && c in w.conns && w.conns[c].picked == Some(Http2)
  }

  /** A client can come to that exactly when the caller's own tls.alpn lists HTTP/2: its first connection
      would speak HTTP/2 then, but the one dialled for a re-send is offered the same list and spoken to
      in HTTP/1.1. */
  lemma SpeaksWrongExactlyWhen(tlsAlpn: Option<Offer>)
    ensures (exists w :: Reachable(w) && w.tlsAlpn == tlsAlpn && SpeaksWrong(w)) <==> Lists(tlsAlpn)
  {
    hide Reachable;
    if Lists(tlsAlpn) {
      OffersDiffer(tlsAlpn, true);
      var w := Resending(tlsAlpn, false, Some(Http2));
      assert 1 in w.exs && w.exs[1].phase.Writing? && w.exs[1].phase.conn == 1 && w.conns[1].picked == Some(Http2);
      assert SpeaksWrong(w);
    }
    forall w | Reachable(w) && w.tlsAlpn == tlsAlpn && SpeaksWrong(w) ensures Lists(tlsAlpn) {
      var e, c :| e in w.exs && w.exs[e].phase.Writing? && w.exs[e].phase.conn == c
        && c in w.conns && w.conns[c].picked == Some(Http2);
      ReachableInv(w);
      PickedOk(w, c);
    }
  }

  lemma PickedOk(w: World, c: ConnId)
    requires Inv(w) && c in w.conns && w.conns[c].picked == Some(Http2)
    ensures Lists(w.tlsAlpn)
  {
    assert ConnOk(w, c);
  }

  /** An exchange on a pooled connection when the client is closed goes on to open another. */
  lemma RedialsAfterClose() returns (w: World)
    ensures Reachable(w) && w.closed && 1 in w.conns && w.conns[1].open && w.conns[1].owner == HeldBy(1)
    ensures 1 in w.exs && w.exs[1].phase == Writing(1, Resent(0))
  {
    hide Reachable;
    var w12 := ClosedAndSpent();
    var w13 := Do(w12, By(1, Redial(0)));
    w := Do(w13, By(1, Redialed(1, None)));
  }

  lemma ClosedAndSpent() returns (w: World)
    ensures Reachable(w) && w.closed && w.exs.Keys == {0, 1} && w.exs[1].phase == Discarding(0)
    ensures w.conns.Keys == {0}
  {
    hide Reachable;
    var w11 := ClosedAndHungUp();
    w := Do(w11, By(1, NeverSaw));
  }

  lemma ClosedAndHungUp() returns (w: World)
    ensures Reachable(w) && w.closed && w.exs.Keys == {0, 1} && w.exs[1].phase == Reading(0, Pooled)
    ensures w.conns.Keys == {0} && SawNothing(w.conns[0])
  {
    hide Reachable;
    var w9 := Reused(None);
    var w10 := Do(w9, Close);
    assert w10.exs == w9.exs && w10.conns.Keys == {0} && w10.conns[0] == w9.conns[0];
    hide Shelves.CloseAll, Registry.CloseAll;
    w := Do(w10, On(0, HangsUp));
  }

  /** An HTTP/2 connection that finishes opening after close() is registered on the closed client. */
  lemma RegistersAfterClose() returns (w: World)
    ensures Reachable(w) && w.closed && 0 in w.registry.all && 0 in w.registry.known && w.registry.known[0].alive
  {
    hide Reachable;
    var w0 := Beginning(None);
    var w1 := Do(w0, By(0, Start(ORIGIN, true, 0)));
    var w2 := Do(w1, Close);
    w := Do(w2, By(0, Opened(0, Some(Http2))));
  }

  /** A connection on which a GOAWAY has been received outlives close() and the body it is sending. */
  lemma GoingAwayOutlivesClose() returns (w: World)
    ensures Reachable(w) && w.closed && 0 in w.registry.known && w.registry.known[0].alive
    ensures 0 !in w.registry.all && 0 in w.exs && w.exs[0].phase == H2Streaming(0)
  {
    hide Reachable;
    var w4 := OnHttp2();
    var w5 := Do(w4, GoesAway(0));
    w := Do(w5, Close);
  }

  lemma OnHttp2() returns (w: World)
    ensures Reachable(w) && 0 in w.exs && w.exs[0].phase == H2Streaming(0)
    ensures 0 in w.registry.known && w.registry.known[0].alive
  {
    hide Reachable;
    var w0 := Beginning(None);
    var w1 := Do(w0, By(0, Start(ORIGIN, true, 0)));
    var w2 := Do(w1, By(0, Opened(0, Some(Http2))));
    var w3 := Do(w2, TakesH2(0));
    w := Do(w3, By(0, H2Answered(false, false)));
  }

  /** The run so far and one action more. */
  lemma More(start: World, actions: seq<Action>, w: World, a: Action) returns (actions': seq<Action>, w': World)
    requires Run(start, actions, w) && Enabled(w, a)
    ensures actions' == actions + [a] && w' == Next(w, a) && Run(start, actions', w')
  {
    actions', w' := actions + [a], Next(w, a);
    RunOneMore(start, actions, w, a);
  }

  /** A second request is on its way when idle() looks at the first one's body. */
  lemma SecondOnItsWay() returns (w: World)
    ensures Reachable(w) && w.inflight == {0} && w.exs.Keys == {0, 1} && w.conns.Keys == {0, 1}
    ensures w.exs[0].phase == Streaming(0, Determinate(0), true) && Unmarked(w.exs[0])
    ensures w.exs[1].phase == Reading(1, Fresh)
    ensures w.conns[0] == NewConn(ORIGIN, None).(owner := HeldBy(0))
    ensures w.conns[1] == NewConn(ORIGIN, None).(owner := HeldBy(1), wire := [Head(1, 200, Determinate(1), true)],
                                                 answer := Sending(1, Determinate(1)))
    ensures Plain(w) && w.pool.lists == map[]
  {
    hide Reachable;
    var w5 := Read(None);
    var w6 := Do(w5, By(1, Start(ORIGIN, true, 0)));
    var w7 := Do(w6, By(1, Opened(1, None)));
    w := SecondAnswered(w7);
  }

  lemma SecondAnswered(w7: World) returns (w: World)
    requires Reachable(w7) && w7.exs.Keys == {0, 1} && w7.conns.Keys == {0, 1} && w7.exs[1].phase == Writing(1, Fresh)
    requires w7.conns[1] == Carrying(NewConn(ORIGIN, None), 1)
    ensures Reachable(w) && w.exs.Keys == {0, 1} && w.exs[0] == w7.exs[0] && w.exs[1].phase == Reading(1, Fresh)
    ensures w == w7.(exs := w.exs, conns := w.conns)
    ensures w.conns.Keys == {0, 1} && w.conns[0] == w7.conns[0]
    ensures w.conns[1] == NewConn(ORIGIN, None).(owner := HeldBy(1), wire := [Head(1, 200, Determinate(1), true)],
                                                 answer := Sending(1, Determinate(1)))
  {
    hide Reachable;
    var w8 := Do(w7, By(1, WriteDone));
    var w9 := Do(w8, On(1, Takes));
    w := Do(w9, On(1, Answers(200, Determinate(1), true)));
  }

  /** Why idle() looks again: when the one body it saw has settled, another is being read. */
  lemma OneLookIsNotEnough() returns (start: World, actions: seq<Action>, end: World)
    ensures Reachable(start) && Run(start, actions, end) && G.Look(start) == G.Waits({0})
    ensures G.CanResume(end, G.Waits({0})) && G.Look(end) == G.Waits({1})
    ensures 1 in end.exs && end.exs[1].phase.Streaming?
  {
    start := SecondOnItsWay();
    hide Reachable, Plain, Run;
    ReadsSecond(start);
    hide Next, Enabled;
    SettlesFirst(Next(start, By(1, HeadRead(false))));
    actions, end := ThreeMore(start, By(1, HeadRead(false)), By(0, BodyCancelled), By(0, Untrack));
  }

  lemma ThreeMore(start: World, a: Action, b: Action, c: Action) returns (actions: seq<Action>, end: World)
    requires Enabled(start, a) && Enabled(Next(start, a), b) && Enabled(Next(Next(start, a), b), c)
    ensures Run(start, actions, end) && end == Next(Next(Next(start, a), b), c)
  {
    assert Run(start, [], start);
    hide Run, Next, Enabled;
    var w: World;
    actions, w := More(start, [], start, a);
    actions, w := More(start, actions, w, b);
    actions, end := More(start, actions, w, c);
  }

  lemma ReadsSecond(w: World)
    requires w.inflight == {0} && w.exs.Keys == {0, 1} && w.conns.Keys == {0, 1}
    requires w.exs[0].phase == Streaming(0, Determinate(0), true) && Unmarked(w.exs[0]) && w.exs[1].phase == Reading(1, Fresh)
    requires w.conns[1].wire == [Head(1, 200, Determinate(1), true)]
    ensures
      var a := By(1, HeadRead(false));
      && Enabled(w, a)
      && var w' := Next(w, a);
      && w'.exs.Keys == {0, 1} && w'.exs[0] == w.exs[0] && w'.exs[1].phase.Streaming?
      && w'.inflight == {0, 1} && w'.conns.Keys == {0, 1}
  {
  }

  lemma SettlesFirst(w: World)
    requires w.inflight == {0, 1} && w.exs.Keys == {0, 1} && w.conns.Keys == {0, 1}
    requires w.exs[0].phase == Streaming(0, Determinate(0), true) && Unmarked(w.exs[0]) && w.exs[1].phase.Streaming?
    ensures
      var a, b := By(0, BodyCancelled), By(0, Untrack);
      && Enabled(w, a) && Enabled(Next(w, a), b)
      && var end := Next(Next(w, a), b);
      && end.exs.Keys == {0, 1} && end.exs[0].phase.Finished? && end.exs[1].phase.Streaming?
      && end.inflight == {1}
  {
    GiveBackLeaves(w, 0, false);
    hide GiveBack;
  }
}
