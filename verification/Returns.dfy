/** Which open connections can still be closed or go back to the pool, and which never will, whatever
    happens. */
module Returns {
  import opened Wrappers
  import opened Shelves
  import opened Registry
  import opened Negotiation
  import opened Protocol
  import opened Safety
  import opened Steps
  import opened Copies
  import opened Leaks

  /** No head is on the wire, and none will come: the server hung up, or expects HTTP/2. */
  predicate NoAnswer(conn: Conn) {
    && !(conn.wire != [] && conn.wire[0].Head?)
    && (conn.hungUp || (conn.queue != [] && conn.picked == Some(Http2)))
  }

  /** A re-send is waiting on c for an answer that cannot come. */
  predicate Forlorn(w: World, e: ExId, c: ConnId) {
    && e in w.exs && (w.exs[e].phase.Writing? || w.exs[e].phase.Reading?)
    && w.exs[e].phase.conn == c && w.exs[e].phase.via.Resent?
    && c in w.conns && NoAnswer(w.conns[c])
  }

  /** c is the connection of a body that nobody has and nothing pulls. */
  predicate Stranded(w: World, e: ExId, c: ConnId) {
    && e in w.exs && w.exs[e].phase.Streaming? && w.exs[e].phase.conn == c && w.exs[e].stuck
    && c in w.conns && !w.conns[c].spoiled
  }

  /** Open, and lost to the program: forgotten already, or about to be, or under a stranded body. */
  ghost predicate Gone(w: World, c: ConnId) {
    || IsLost(w, c)
    || (exists e :: Forlorn(w, e, c))
    || (exists e :: Stranded(w, e, c))
  }

  ghost predicate LetGo(w: World, c: ConnId) {
    c in w.conns && (!w.conns[c].open || w.conns[c].owner.Idle?)
  }

  /** Some run from w closes c or gives it back. */
  ghost predicate CanBeLetGo(w: World, c: ConnId) {
    exists actions, end :: Run(w, actions, end) && LetGo(end, c)
  }

  // ---------------------------------------------------------------- gone for good

  lemma GoneIsOpen(w: World, c: ConnId)
    requires Inv(w) && Gone(w, c)
    ensures c in w.conns && w.conns[c].open && !w.conns[c].owner.Idle?
  {
    if IsLost(w, c) {
      assert ConnOk(w, c);
    } else if e :| Forlorn(w, e, c) {
      assert HoldsOk(w, e);
    } else {
      var e :| Stranded(w, e, c);
      assert HoldsOk(w, e) && ConnOk(w, c);
    }
  }

  /** What any action leaves of a connection that some exchange holds, unless it is a step of that one. */
  lemma HeldStays(w: World, a: Action, e: ExId)
    requires Inv(w) && Enabled(w, a) && e in w.exs && Holding(w.exs[e].phase).Some? && !(a.By? && a.e == e)
    ensures
      var c, w' := Holding(w.exs[e].phase).value, Next(w, a);
      && c in w.conns && c in w'.conns
      && (w'.conns[c] == w.conns[c] || (a.On? && a.c == c && w'.conns[c] == Serve(w.conns[c], a.event)))
  {
    hide Inv;
    HeldConn(w, e);
    hide ConnOk;
    if a.By? {
      HeldStaysBy(w, a.e, a.step, e);
    } else {
      hide Stepped, Registry.CloseAll, Shelves.CloseAll, Serve;
    }
  }

  lemma HeldStaysBy(w: World, o: ExId, step: Step, e: ExId)
    requires Inv(w) && CanStep(w, o, step) && e in w.exs && Holding(w.exs[e].phase).Some? && o != e
    ensures
      var c, w' := Holding(w.exs[e].phase).value, Stepped(w, o, step);
      c in w.conns && c in w'.conns && w'.conns[c] == w.conns[c]
  {
    hide Inv;
    var c := Holding(w.exs[e].phase).value;
    HeldConn(w, e);
    hide ConnOk;
    if step.Start? {
      FromPoolConns(w, w.(exs := w.exs[o := Unstarted(step.key)]), o, step.expired);
      hide FromPool;
    } else if step.H2Refused? {
      FromPoolConns(w, w.(exs := w.exs[o := Disowned(w.exs[o]).(phase := Failed)]), o, step.expired);
      hide FromPool;
    } else if ByPool(step) {
      HeldConn(w, o);
      GiveBackStays(w, w.exs[o].phase.conn, Eligible(w.exs[o].phase, step), c);
      hide GiveBack;
    } else {
      View(w, o);
      OtherConnsStay(w, o, step, c);
      hide Stepped;
    }
  }

  lemma GiveBackStays(w: World, d: ConnId, eligible: bool, c: ConnId)
    requires Inv(w) && d in w.conns && c in w.conns && c != d && !w.conns[c].owner.Idle?
    ensures c in GiveBack(w, d, eligible).conns && GiveBack(w, d, eligible).conns[c] == w.conns[c]
  {
    hide Inv;
    var victim := Victim(w.pool, w.conns[d].key, eligible);
    GiveBackTouches(w, d, eligible);
    if victim.Some? {
      VictimIdle(w, w.conns[d].key, victim.value);
    }
    hide GiveBack, Victim, ConnOk;
  }

  lemma ForlornStays(w: World, a: Action, e: ExId, c: ConnId)
    requires Inv(w) && Enabled(w, a) && Forlorn(w, e, c)
    ensures Forlorn(Next(w, a), e, c) || IsLost(Next(w, a), c)
  {
    hide Inv;
    if a.By? && a.e == e {
      ForlornSteps(w, e, a.step, c);
      hide Stepped;
    } else {
      HeldStays(w, a, e);
      NextCounts(w, a);
      HeldConn(w, e);
      PendingHead(w, e);
      hide Next, ConnOk;
    }
  }

  lemma ForlornSteps(w: World, e: ExId, step: Step, c: ConnId)
    requires CanStep(w, e, step) && Forlorn(w, e, c)
    ensures Forlorn(Stepped(w, e, step), e, c) || IsLost(Stepped(w, e, step), c)
  {
    assert step.WriteDone? || step.Broken?;
    if step.Broken? {
      BrokenConn(w, e);
      hide Stepped;
    }
  }

  lemma StrandedStays(w: World, a: Action, e: ExId, c: ConnId)
    requires Inv(w) && Enabled(w, a) && Stranded(w, e, c)
    ensures Stranded(Next(w, a), e, c)
  {
    hide Inv;
    View(w, e);
    assert !(a.By? && a.e == e);
    HeldStays(w, a, e);
    NextCounts(w, a);
    hide Next, Serve;
    assert a.On? && a.c == c ==> Serve(w.conns[c], a.event).spoiled == w.conns[c].spoiled by {
      if a.On? && a.c == c {
        ServeSpoils(w.conns[c], a.event);
      }
    }
  }

  lemma ServeSpoils(conn: Conn, event: Event)
    requires CanServe(conn, event)
    ensures Serve(conn, event).spoiled == conn.spoiled
  {
  }

  lemma GoneStays(w: World, a: Action, c: ConnId)
    requires Inv(w) && Enabled(w, a) && Gone(w, c)
    ensures Gone(Next(w, a), c)
  {
    hide Inv;
    if IsLost(w, c) {
      NextMarks(w, a, c);
    } else if e :| Forlorn(w, e, c) {
      ForlornStays(w, a, e, c);
    } else {
      var e :| Stranded(w, e, c);
      StrandedStays(w, a, e, c);
    }
    hide Next;
  }

  lemma {:induction false} GoneForGood(w: World, actions: seq<Action>, end: World, c: ConnId)
    requires Inv(w) && Gone(w, c) && Run(w, actions, end)
    ensures Inv(end) && Gone(end, c)
    decreases |actions|
  {
    if actions != [] {
      NextKeeps(w, actions[0]);
      GoneStays(w, actions[0], c);
      hide Inv, Gone, Next;
      GoneForGood(Next(w, actions[0]), actions[1..], end, c);
    }
  }

  // ---------------------------------------------------------------- not yet

  lemma First(w: World, a: Action, c: ConnId)
    requires Enabled(w, a) && CanBeLetGo(Next(w, a), c)
    ensures CanBeLetGo(w, c)
  {
    hide Next, LetGo;
    var actions, end :| Run(Next(w, a), actions, end) && LetGo(end, c);
    assert ([a] + actions)[1..] == actions;
    assert Run(w, [a] + actions, end);
  }

  lemma Already(w: World, c: ConnId)
    requires LetGo(w, c)
    ensures CanBeLetGo(w, c)
  {
    assert Run(w, [], w);
  }

  lemma BodyLetsGo(w: World, e: ExId)
    requires CanStep(w, e, BodyBroke)
    ensures CanBeLetGo(w, w.exs[e].phase.conn)
  {
    Already(Next(w, By(e, BodyBroke)), w.exs[e].phase.conn);
    hide CanBeLetGo, LetGo;
    First(w, By(e, BodyBroke), w.exs[e].phase.conn);
  }

  lemma FailureLetsGo(w: World, e: ExId)
    requires CanStep(w, e, Broken) && !w.exs[e].phase.via.Resent?
    ensures CanBeLetGo(w, w.exs[e].phase.conn)
  {
    Already(Next(w, By(e, Broken)), w.exs[e].phase.conn);
    hide CanBeLetGo, LetGo;
    First(w, By(e, Broken), w.exs[e].phase.conn);
  }

  /** A head read, and the body broken off. */
  lemma HeadLetsGo(w: World, e: ExId)
    requires CanStep(w, e, HeadRead(false)) && !w.exs[e].stuck
    ensures CanBeLetGo(w, w.exs[e].phase.conn)
  {
    var a := By(e, HeadRead(false));
    hide CanBeLetGo;
    BodyLetsGo(Next(w, a), e);
    First(w, a, w.exs[e].phase.conn);
  }

  /** A request written, and waiting for its head to be read or to come. */
  predicate Expects(w: World, e: ExId, c: ConnId) {
    e in w.exs && w.exs[e].phase.Reading? && w.exs[e].phase.conn == c && c in w.conns && !w.exs[e].stuck
  }

  lemma WorkLetsGo(w: World, e: ExId, c: ConnId)
    requires Expects(w, e, c) && w.conns[c].answer.Working? && !w.conns[c].hungUp && w.conns[c].wire == []
    ensures CanBeLetGo(w, c)
  {
    var a := On(c, Answers(200, Determinate(0), true));
    hide CanBeLetGo;
    HeadLetsGo(Next(w, a), e);
    First(w, a, c);
  }

  lemma RequestLetsGo(w: World, e: ExId, c: ConnId)
    requires Expects(w, e, c) && w.conns[c].queue == [e] && w.conns[c].answer.Waiting? && !w.conns[c].hungUp
    requires w.conns[c].wire == [] && w.conns[c].picked != Some(Http2)
    ensures CanBeLetGo(w, c)
  {
    hide CanBeLetGo;
    WorkLetsGo(Next(w, On(c, Takes)), e, c);
    First(w, On(c, Takes), c);
  }

  lemma AwaitedLetsGo(w: World, e: ExId, c: ConnId)
    requires Expects(w, e, c) && Pending(w.conns[c], e) && !NoAnswer(w.conns[c])
    ensures CanBeLetGo(w, c)
  {
    hide CanBeLetGo;
    if w.conns[c].wire != [] && w.conns[c].wire[0].Head? {
      HeadLetsGo(w, e);
    } else if w.conns[c].answer.Working? {
      WorkLetsGo(w, e, c);
    } else {
      RequestLetsGo(w, e, c);
    }
  }

  lemma ResentLetsGo(w: World, e: ExId, c: ConnId)
    requires Inv(w) && e in w.exs && Holding(w.exs[e].phase) == Some(c) && !w.exs[e].phase.Streaming?
    requires !Forlorn(w, e, c) && w.exs[e].phase.via.Resent?
    ensures CanBeLetGo(w, c)
  {
    hide Inv, CanBeLetGo;
    HeldConn(w, e);
    PendingHead(w, e);
    View(w, e);
    hide ConnOk, Pending, NoAnswer;
    if w.exs[e].phase.Writing? {
      AwaitedLetsGo(Next(w, By(e, WriteDone)), e, c);
      First(w, By(e, WriteDone), c);
    } else {
      AwaitedLetsGo(w, e, c);
    }
  }

  lemma HeldLetsGo(w: World, e: ExId, c: ConnId)
    requires Inv(w) && e in w.exs && Holding(w.exs[e].phase) == Some(c)
    requires !Forlorn(w, e, c) && !Stranded(w, e, c) && c in w.conns && w.conns[c].open
    ensures CanBeLetGo(w, c)
  {
    assert !w.conns[c].spoiled by {
      assert ConnOk(w, c);
    }
    hide Inv, CanBeLetGo;
    if w.exs[e].phase.Streaming? {
      BodyLetsGo(w, e);
    } else if w.exs[e].phase.via.Resent? {
      ResentLetsGo(w, e, c);
    } else {
      FailureLetsGo(w, e);
    }
  }

  /** From any state a client can reach, a connection can still be closed or go back to the pool exactly
      when it is not gone: not forgotten, nor waiting as a re-send for an answer that cannot come, nor
      held by a body that nobody has and nothing pulls. */
  lemma ComesBackExactlyWhen(w: World, c: ConnId)
    requires Reachable(w) && c in w.conns
    ensures CanBeLetGo(w, c) <==> !Gone(w, c)
  {
    hide Reachable, Inv, Run, LetGo, Gone;
    ReachableInv(w);
    if !Gone(w, c) {
      NotGone(w, c);
    } else {
      forall actions, end | Run(w, actions, end) ensures !LetGo(end, c) {
        GoneForGood(w, actions, end, c);
        GoneIsOpen(end, c);
        assert !LetGo(end, c) by {
          Unreleased(end, c);
        }
      }
    }
  }

  lemma Unreleased(w: World, c: ConnId)
    requires c in w.conns && w.conns[c].open && !w.conns[c].owner.Idle?
    ensures !LetGo(w, c)
  {
  }

  lemma NotGone(w: World, c: ConnId)
    requires Inv(w) && c in w.conns && !Gone(w, c)
    ensures CanBeLetGo(w, c)
  {
    assert ConnOk(w, c);
    hide Inv, CanBeLetGo, WireOk, QueueOk, Forlorn, Stranded;
    if LetGo(w, c) {
      Already(w, c);
    } else if w.conns[c].owner.HeldBy? {
      HeldLetsGo(w, w.conns[c].owner.ex, c);
    }
  }

  /** What is gone without having been forgotten is an orphan, or a re-send that can only fail. */
  lemma GoneIsUnkept(w: World, c: ConnId)
    requires Reachable(w) && c in w.conns && Gone(w, c)
    ensures !Kept(w, c) || exists e :: Forlorn(w, e, c)
  {
    hide Reachable;
    ReachableInv(w);
    GoneIsOpen(w, c);
    if e :| Stranded(w, e, c) {
      View(w, e);
    }
    hide Inv;
  }
}
