/** Runs in which a body is left to nobody, and what becomes of its connection and of the client. */
module Strandings {
  import opened Wrappers
  import opened Shelves
  import opened Registry
  import opened Negotiation
  import opened Protocol
  import opened Safety
  import opened Steps
  import opened Leaks
  import opened Returns
  import G = Graceful
  import En = Endings
  import Sc = Scenarios

  /** What can happen inside one call. */
  predicate Inner(actions: seq<Action>) {
    forall i | 0 <= i < |actions| ::
      !actions[i].Close? && !(actions[i].By? && (actions[i].step.Start? || actions[i].step.GivenUp?))
  }

  lemma {:induction false} RunOn(w: World, actions: seq<Action>, end: World)
    requires Reachable(w) && Run(w, actions, end)
    ensures Reachable(end)
    decreases |actions|
  {
    hide Reachable, Next;
    if actions != [] {
      var w' := Sc.Do(w, actions[0]);
      RunOn(w', actions[1..], end);
    }
  }

  // ---------------------------------------------------------------- a response with a body of five

  /** The request of exchange 0 has been processed, on connection 0. */
  ghost predicate Processing(w: World) {
    && 0 in w.exs && w.exs[0].phase == Reading(0, Fresh) && w.exs[0].attempt == OnH1(0) && Unmarked(w.exs[0])
    && 0 in w.conns && w.conns[0] == NewConn(Sc.ORIGIN, None).(owner := HeldBy(0), answer := Working(0))
  }

  lemma Requested(w0: World) returns (w1: World, actions: seq<Action>, end: World)
    requires w0 == Init(false, None, true, 6, 24)
    ensures CanStep(w0, 0, Start(Sc.ORIGIN, true, 0)) && w1 == Next(w0, By(0, Start(Sc.ORIGIN, true, 0)))
    ensures Run(w1, actions, end) && Inner(actions)
    ensures Processing(end)
  {
    w1 := Next(w0, By(0, Start(Sc.ORIGIN, true, 0)));
    actions, end := [], w1;
    assert Run(w1, actions, end);
    hide Run;
    actions, end := Sc.More(w1, actions, end, By(0, Opened(0, None)));
    actions, end := Sc.More(w1, actions, end, By(0, WriteDone));
    actions, end := Sc.More(w1, actions, end, On(0, Takes));
  }

  /** On c, a body of `left` units that e reads, or has begun to, is coming. */
  ghost predicate Coming(w: World, e: ExId, c: ConnId, left: nat) {
    && e in w.exs && w.exs[e].phase == Streaming(c, Determinate(left), true) && w.exs[e].got != []
    && c in w.conns && w.conns[c].owner == HeldBy(e) && w.conns[c].open && !w.conns[c].spoiled
    && !w.conns[c].hungUp && w.conns[c].wire == [] && w.conns[c].answer == Sending(e, Determinate(left))
  }

  /** The answer arrives, and its head is read. */
  lemma HeadArrives(w: World, status: nat) returns (actions: seq<Action>, end: World)
    requires Processing(w) && status in {205, 302}
    ensures Run(w, actions, end) && Inner(actions)
    ensures Coming(end, 0, 0, 5) && !end.exs[0].thrown && !end.exs[0].stuck
    ensures end.exs[0].unheld <==> status == 205
  {
    actions, end := [], w;
    assert Run(w, actions, end);
    hide Run;
    actions, end := Sc.More(w, actions, end, On(0, Answers(status, Determinate(5), true)));
    actions, end := Sc.More(w, actions, end, By(0, HeadRead(false)));
  }

  lemma ChunkIsReadAhead(w: World, e: ExId, c: ConnId, left: nat) returns (actions: seq<Action>, end: World)
    requires Coming(w, e, c, left) && w.exs[e].unheld && !w.exs[e].stuck && left > 1
    ensures Run(w, actions, end) && Inner(actions)
    ensures Coming(end, e, c, left - 1) && end.exs[e].unheld && !end.exs[e].stuck
    ensures end.exs[e].thrown == w.exs[e].thrown && |end.exs[e].got| == |w.exs[e].got| + 1
  {
    actions, end := [], w;
    assert Run(w, actions, end);
    hide Run;
    actions, end := Sc.More(w, actions, end, On(c, Sends));
    actions, end := Sc.More(w, actions, end, By(e, BodyRead));
  }

  lemma {:induction false} Then(w: World, first: seq<Action>, mid: World, rest: seq<Action>, end: World)
    requires Run(w, first, mid) && Run(mid, rest, end)
    ensures Run(w, first + rest, end)
    decreases |first|
  {
    hide Next;
    if first == [] {
      assert first + rest == rest;
    } else {
      Then(Next(w, first[0]), first[1..], mid, rest, end);
      assert (first + rest)[1..] == first[1..] + rest;
    }
  }

  /** Two chunks are read ahead, and that is all that will ever be read of a body nobody has. */
  lemma ReadsAheadAndSticks(w: World, e: ExId, c: ConnId) returns (actions: seq<Action>, end: World)
    requires Coming(w, e, c, 5) && w.exs[e].unheld && !w.exs[e].stuck
    ensures Run(w, actions, end) && Inner(actions)
    ensures Coming(end, e, c, 3) && end.exs[e].thrown == w.exs[e].thrown && Stranded(end, e, c)
  {
    var w1, w2, a1, a2, a3;
    a1, w1 := ChunkIsReadAhead(w, e, c, 5);
    a2, w2 := ChunkIsReadAhead(w1, e, c, 4);
    a3, end := ReadAheadSticks(w2, e, c);
    hide Run, Coming, Stranded;
    Then(w, a1, w1, a2, w2);
    Then(w, a1 + a2, w2, a3, end);
    actions := a1 + a2 + a3;
  }

  lemma ReadAheadSticks(w: World, e: ExId, c: ConnId) returns (actions: seq<Action>, end: World)
    requires Coming(w, e, c, 3) && w.exs[e].unheld && !w.exs[e].stuck && |w.exs[e].got| > 2
    ensures Run(w, actions, end) && Inner(actions)
    ensures Coming(end, e, c, 3) && end.exs[e].thrown == w.exs[e].thrown && Stranded(end, e, c)
  {
    assert Run(w, [], w);
    hide Run;
    actions, end := Sc.More(w, [], w, By(e, Sticks));
  }

  /** Building the response to a re-sent request throws: once two chunks have been read ahead, nothing
      can close its connection any more. */
  lemma ThrowStrands() returns (w: World)
    ensures Reachable(w) && 1 in w.conns && w.conns[1].open && w.exs.Keys >= {1} && w.exs[1].thrown
    ensures Gone(w, 1) && !Kept(w, 1) && !CanBeLetGo(w, 1)
  {
    var w1 := Sc.LeavesABodyUnread();
    hide Reachable, Gone, Kept, CanBeLetGo, Run;
    var actions;
    actions, w := ReadsAheadAndSticks(w1, 1, 1);
    StrandedIsGone(w1, actions, w, 1, 1);
  }

  lemma StrandedIsGone(w: World, actions: seq<Action>, end: World, e: ExId, c: ConnId)
    requires Reachable(w) && Run(w, actions, end) && Coming(end, e, c, 3) && Stranded(end, e, c)
    ensures Reachable(end) && Gone(end, c) && !Kept(end, c) && !CanBeLetGo(end, c)
  {
    hide Reachable, Run, CanBeLetGo;
    RunOn(w, actions, end);
    ComesBackExactlyWhen(end, c);
    ReachableInv(end);
    View(end, e);
    hide Inv;
  }

  /** A 205 that declares a body, on the first connection of a client: the caller gets a Response without a
      body, the connection stays open for good, and a call of idle() never returns. */
  lemma EmptyResponseStrands() returns (w: World)
    ensures Reachable(w) && 0 in w.conns && w.conns[0].open && 0 in w.exs && !w.exs[0].thrown
    ensures Gone(w, 0) && !Kept(w, 0) && !CanBeLetGo(w, 0)
    ensures !En.CanReturn(G.Waiting.Waiting(w, G.Looks))
  {
    var w0 := Sc.Beginning(None);
    var w1, asked, w2 := Requested(w0);
    hide Reachable, Gone, Kept, CanBeLetGo, Run, Next, CanStep;
    w1 := Sc.Do(w0, By(0, Start(Sc.ORIGIN, true, 0)));
    var read, w3 := HeadArrives(w2, 205);
    var ahead;
    ahead, w := ReadsAheadAndSticks(w3, 0, 0);
    RunOn(w1, asked, w2);
    RunOn(w2, read, w3);
    StrandedIsGone(w3, ahead, w, 0, 0);
    NeverReturns(w, 0);
  }

  lemma NeverReturns(w: World, e: ExId)
    requires Reachable(w) && e in w.exs && w.exs[e].stuck
    ensures !En.CanReturn(G.Waiting.Waiting(w, G.Looks))
  {
    hide Reachable;
    ReachableInv(w);
    En.StuckBlocks(w, e);
    var s := G.Waiting.Waiting(w, G.Looks);
    assert G.Waited(s, [], s);
    hide Inv, En.CanReturn;
    En.IdleReturnsExactlyWhen(s, [], s);
  }

  // ---------------------------------------------------------------- the one call of createFetch

  /** A point some run of the one call comes to. */
  ghost predicate Reached(c: G.Call, maxRedirects: nat) {
    exists start, moves :: G.Beginning(start) && G.CallRun(start, moves, c, maxRedirects)
  }

  lemma {:induction false} CallOneMore(c: G.Call, moves: seq<G.CallMove>, mid: G.Call, m: G.CallMove, maxRedirects: nat)
    requires G.CallRun(c, moves, mid, maxRedirects) && G.CanCall(mid, m, maxRedirects)
    ensures G.CallRun(c, moves + [m], G.Called(mid, m, maxRedirects), maxRedirects)
    decreases |moves|
  {
    hide G.Called, G.CanCall;
    if moves == [] {
      assert [m][1..] == [];
      assert moves + [m] == [m];
    } else {
      CallOneMore(G.Called(c, moves[0], maxRedirects), moves[1..], mid, m, maxRedirects);
      assert (moves + [m])[1..] == moves[1..] + [m];
    }
  }

  lemma DoCall(c: G.Call, m: G.CallMove, maxRedirects: nat) returns (c': G.Call)
    requires Reached(c, maxRedirects) && G.CanCall(c, m, maxRedirects)
    ensures c' == G.Called(c, m, maxRedirects) && Reached(c', maxRedirects)
  {
    c' := G.Called(c, m, maxRedirects);
    var start, moves :| G.Beginning(start) && G.CallRun(start, moves, c, maxRedirects);
    hide G.Called, G.CanCall;
    CallOneMore(start, moves, c, m, maxRedirects);
  }

  lemma {:induction false} Inside(c: G.Call, actions: seq<Action>, end: World, maxRedirects: nat)
    requires Reached(c, maxRedirects) && Run(c.w, actions, end) && Inner(actions)
    ensures Reached(c.(w := end), maxRedirects)
    decreases |actions|
  {
    hide Reached, Next;
    if actions == [] {
      assert c.(w := end) == c;
    } else {
      var c' := DoCall(c, G.Inside(actions[0]), maxRedirects);
      Inside(c', actions[1..], end, maxRedirects);
    }
  }

  /** The one call, its response read to the end of its head. */
  lemma CallAnswered(status: nat, maxRedirects: nat) returns (c: G.Call)
    requires status in {205, 302}
    ensures Reached(c, maxRedirects) && c.stage == G.Following && c.hops == [0]
    ensures Coming(c.w, 0, 0, 5) && !c.w.exs[0].thrown && !c.w.exs[0].stuck
    ensures c.w.exs[0].unheld <==> status == 205
  {
    var w0 := Init(false, None, true, 6, 24);
    c := G.Call.Call(w0, G.Following, []);
    assert G.CallRun(c, [], c, maxRedirects) && G.Beginning(c);
    var w1, asked, w2 := Requested(w0);
    var read, w3 := HeadArrives(w2, status);
    assert Reached(c, maxRedirects);
    hide Reached, Run, Coming, Processing, Next, CanStep;
    c := DoCall(c, G.NextHop(0, Sc.ORIGIN, true, 0), maxRedirects);
    assert c.hops == [0];
    Inside(c, asked, w2, maxRedirects);
    c := c.(w := w2);
    Inside(c, read, w3, maxRedirects);
    c := c.(w := w3);
  }

  /** The redirect mode is 'error' and the server answers 302 with a body: the fetch throws, the client is
      closed, and the connection of the answer stays open for good. */
  lemma ClosesOverAnOpenConnection(maxRedirects: nat) returns (c: G.Call)
    ensures Reached(c, maxRedirects) && c.stage == G.Over(true) && c.w.closed
    ensures 0 in c.w.conns && c.w.conns[0].open && Gone(c.w, 0)
  {
    c := CallAnswered(302, maxRedirects);
    c := GivesUpAndSticks(c, maxRedirects);
    hide Reached;
    ClosedAndStranded(c.w);
    hide Next, Gone, Stranded;
    c := DoCall(c, G.Closes, maxRedirects);
  }

  lemma GivesUpAndSticks(c: G.Call, maxRedirects: nat) returns (c': G.Call)
    requires Reached(c, maxRedirects) && c.stage == G.Following && c.hops == [0]
    requires Coming(c.w, 0, 0, 5) && Unmarked(c.w.exs[0])
    ensures Reached(c', maxRedirects) && c'.stage == G.Threw && Coming(c'.w, 0, 0, 3) && Stranded(c'.w, 0, 0)
  {
    hide Reached;
    assert CanStep(c.w, 0, GivenUp);
    var c1 := DoCall(c, G.GivesUp, maxRedirects);
    hide Run;
    var actions, end := ReadsAheadAndSticks(c1.w, 0, 0);
    Inside(c1, actions, end, maxRedirects);
    c' := c1.(w := end);
  }

  lemma ClosedAndStranded(w: World)
    requires Coming(w, 0, 0, 3) && Stranded(w, 0, 0)
    ensures var w' := Next(w, Close); w'.closed && 0 in w'.conns && w'.conns[0].open && Gone(w', 0)
  {
    hide Shelves.CloseAll, Registry.CloseAll;
    assert Stranded(Next(w, Close), 0, 0);
  }

  /** A 205 with a body, over createFetch: the caller has its Response, and whatever happens then, the
      client is never closed. */
  lemma NeverCloses(maxRedirects: nat) returns (c: G.Call)
    ensures Reached(c, maxRedirects) && c.stage.Handed?
    ensures forall moves, end | G.CallRun(c, moves, end, maxRedirects) :: !end.stage.Over? && !end.w.closed
  {
    c := CallAnswered(205, maxRedirects);
    c := HandedAndStuck(c, maxRedirects);
    StuckCallStays(c, 0, maxRedirects);
  }

  lemma HandedAndStuck(c: G.Call, maxRedirects: nat) returns (c': G.Call)
    requires Reached(c, maxRedirects) && c.stage == G.Following && c.hops == [0]
    requires Coming(c.w, 0, 0, 5) && c.w.exs[0].unheld && !c.w.exs[0].thrown && !c.w.exs[0].stuck
    ensures Reached(c', maxRedirects) && c'.stage.Handed? && 0 in c'.w.exs && c'.w.exs[0].stuck && !c'.w.exs[0].thrown
  {
    hide Reached;
    var c1 := DoCall(c, G.HandsOut, maxRedirects);
    hide Run;
    var actions, end := ReadsAheadAndSticks(c1.w, 0, 0);
    Inside(c1, actions, end, maxRedirects);
    c' := c1.(w := end);
  }

  lemma StuckCallStays(c: G.Call, e: ExId, maxRedirects: nat)
    requires Reached(c, maxRedirects) && c.stage.Handed? && e in c.w.exs && c.w.exs[e].stuck && !c.w.exs[e].thrown
    ensures forall moves, end | G.CallRun(c, moves, end, maxRedirects) :: !end.stage.Over? && !end.w.closed
  {
    var start, before :| G.Beginning(start) && G.CallRun(start, before, c, maxRedirects);
    G.CallInvariant(start, before, c, maxRedirects);
    En.StuckBlocks(c.w, e);
    forall moves, end | G.CallRun(c, moves, end, maxRedirects) ensures !end.stage.Over? && !end.w.closed {
      En.CallBlockedForGood(c, moves, end, maxRedirects);
      G.CallKeeps(c, moves, end, maxRedirects);
      hide Inv;
    }
  }
}
