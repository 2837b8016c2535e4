/** Whether a graceful end (module Graceful) can still come: idle() return, the one call of createFetch
    close its client. */
module Endings {
  import Shelves
  import opened Registry
  import opened Protocol
  import opened Safety
  import opened Steps
  import opened Copies
  import opened Graceful

  /** Tracked, and left unpulled by anybody. */
  ghost predicate Blocks(w: World, e: ExId) {
    e in w.inflight && e in w.exs && w.exs[e].stuck
  }

  lemma StuckBlocks(w: World, e: ExId)
    requires Inv(w) && e in w.exs
    ensures w.exs[e].stuck ==> Blocks(w, e) && w.exs[e].unheld && !w.exs[e].phase.Finished?
  {
    View(w, e);
    hide Inv, PoolOk, Consistent, StoreOk;
  }

  lemma BlocksStays(w: World, a: Action, e: ExId)
    requires Inv(w) && Enabled(w, a) && Blocks(w, e)
    ensures Blocks(Next(w, a), e) && Next(w, a).exs[e].thrown == w.exs[e].thrown
  {
    NextKeeps(w, a);
    TrackedIsAnswered(w, e);
    AnsweredStays(w, a, e);
    StuckBlocks(Next(w, a), e);
    hide Inv, Next;
  }

  // ---------------------------------------------------------------- the bodies settle, unless stuck

  /** A body breaks off, or its promise is taken out of the set: nothing a fetch or a caller does. */
  predicate Quietly(actions: seq<Action>) {
    forall i | 0 <= i < |actions| :: actions[i].By? && (actions[i].step.BodyBroke? || actions[i].step.H2Ended? || actions[i].step.Untrack?)
  }

  /** What the settling of bodies leaves alone. */
  ghost predicate Outlives(w: World, w': World) {
    && w'.exs.Keys == w.exs.Keys
    && (forall e <- w.exs :: Answered(w.exs[e].phase) ==>
          Answered(w'.exs[e].phase) && w'.exs[e].thrown == w.exs[e].thrown && (w'.exs[e].stuck ==> w.exs[e].stuck))
  }

  lemma OneOutlives(w: World, e: ExId, step: Step)
    requires CanStep(w, e, step) && (step.BodyBroke? || step.H2Ended? || step.Untrack?)
    ensures Outlives(w, Next(w, By(e, step)))
  {
    StepLeaves(w, e, step);
    StepCounts(w, e, step);
    hide Stepped;
  }

  lemma Untracks(w: World, e: ExId)
    requires CanStep(w, e, Untrack)
    ensures Next(w, By(e, Untrack)).inflight == w.inflight - {e}
  {
  }

  /** How a tracked body that has not settled yet settles. */
  lemma HowItBreaks(w: World, e: ExId) returns (step: Step)
    requires Inv(w) && e in w.inflight && !Blocks(w, e) && !w.exs[e].phase.Settled?
    ensures CanStep(w, e, step) && (step.BodyBroke? || step.H2Ended?)
  {
    TrackedIsAnswered(w, e);
    View(w, e);
    hide Inv, PoolOk, Consistent, StoreOk, ExOk;
    step := if w.exs[e].phase.Streaming? then BodyBroke else H2Ended;
  }

  lemma BreakSettles(w: World, e: ExId, step: Step)
    requires CanStep(w, e, step) && (step.BodyBroke? || step.H2Ended?)
    ensures
      var w' := Next(w, By(e, step));
      e in w'.exs && w'.exs[e].phase.Settled? && w'.inflight == w.inflight
  {
    hide Begin, FromPool, GiveBack, ReadHead, ReadBody, Connected, Dial, DispatchH2, Shelves.Discard;
  }

  /** One action before a run in which bodies settle. */
  lemma Before(w: World, e: ExId, step: Step, rest: seq<Action>, end: World) returns (actions: seq<Action>)
    requires CanStep(w, e, step) && (step.BodyBroke? || step.H2Ended? || step.Untrack?)
    requires Run(Next(w, By(e, step)), rest, end) && Quietly(rest) && Outlives(Next(w, By(e, step)), end)
    ensures Run(w, actions, end) && Quietly(actions) && Outlives(w, end)
  {
    OneOutlives(w, e, step);
    hide Next;
    actions := [By(e, step)] + rest;
    assert actions[1..] == rest;
  }

  ghost predicate NoneBlocks(w: World) {
    forall e <- w.inflight :: !Blocks(w, e)
  }

  lemma StillNone(w: World, e: ExId, step: Step)
    requires Inv(w) && NoneBlocks(w)
    requires CanStep(w, e, step) && (step.BodyBroke? || step.H2Ended? || step.Untrack?)
    requires Next(w, By(e, step)).inflight <= w.inflight
    ensures Inv(Next(w, By(e, step))) && NoneBlocks(Next(w, By(e, step)))
  {
    var w' := Next(w, By(e, step));
    NextKeeps(w, By(e, step));
    OneOutlives(w, e, step);
    hide Next;
    forall o <- w'.inflight ensures !Blocks(w', o) {
      TrackedIsAnswered(w, o);
    }
    hide Inv;
  }

  /** The bodies that are tracked can all settle, if none is stuck. */
  lemma {:induction false} Drain(w: World) returns (actions: seq<Action>, end: World)
    requires Inv(w) && NoneBlocks(w)
    ensures Run(w, actions, end) && Quietly(actions)
    ensures Inv(end) && end.inflight == {} && Outlives(w, end)
    decreases |w.inflight|, 1
  {
    if w.inflight == {} {
      actions, end := [], w;
    } else {
      var e :| e in w.inflight;
      TrackedIsAnswered(w, e);
      assert !Blocks(w, e);
      hide Inv, Run, Quietly, Outlives, Blocks, NoneBlocks, CanStep, Next;
      if w.exs[e].phase.Settled? {
        actions, end := DrainSettled(w, e);
      } else {
        var step := HowItBreaks(w, e);
        BreakSettles(w, e, step);
        StillNone(w, e, step);
        var rest;
        rest, end := DrainSettled(Next(w, By(e, step)), e);
        actions := Before(w, e, step, rest, end);
      }
    }
  }

  lemma {:induction false} DrainSettled(w: World, e: ExId) returns (actions: seq<Action>, end: World)
    requires Inv(w) && e in w.inflight && e in w.exs && w.exs[e].phase.Settled? && NoneBlocks(w)
    ensures Run(w, actions, end) && Quietly(actions)
    ensures Inv(end) && end.inflight == {} && Outlives(w, end)
    decreases |w.inflight|, 0
  {
    assert CanStep(w, e, Untrack);
    Untracks(w, e);
    hide Inv, Run, Quietly, Outlives, Blocks, NoneBlocks, CanStep, Next;
    StillNone(w, e, Untrack);
    var rest;
    assert |Next(w, By(e, Untrack)).inflight| < |w.inflight|;
    rest, end := Drain(Next(w, By(e, Untrack)));
    actions := Before(w, e, Untrack, rest, end);
  }

  // ---------------------------------------------------------------- idle()

  /** The bodies it waits for have had their heads read. */
  ghost predicate SeenOk(w: World, idle: Idle) {
    idle.Waits? ==> forall e <- idle.seen :: e in w.exs && Answered(w.exs[e].phase)
  }

  lemma {:induction false} WaitedKeeps(s: Waiting, moves: seq<Move>, end: Waiting)
    requires Inv(s.w) && SeenOk(s.w, s.idle) && Waited(s, moves, end)
    ensures Inv(end.w) && SeenOk(end.w, end.idle)
    decreases |moves|
  {
    if moves != [] {
      MovedKeeps(s, moves[0]);
      hide Inv, SeenOk, Moved, CanMove;
      WaitedKeeps(Moved(s, moves[0]), moves[1..], end);
    }
  }

  lemma MovedKeeps(s: Waiting, m: Move)
    requires Inv(s.w) && SeenOk(s.w, s.idle) && CanMove(s, m)
    ensures Inv(Moved(s, m).w) && SeenOk(Moved(s, m).w, Moved(s, m).idle)
  {
    hide Inv, Next;
    if m.Goes? {
      NextKeeps(s.w, m.a);
      if s.idle.Waits? {
        forall e <- s.idle.seen ensures e in Next(s.w, m.a).exs && Answered(Next(s.w, m.a).exs[e].phase) {
          AnsweredStays(s.w, m.a, e);
        }
      }
    } else {
      forall e <- s.w.inflight ensures e in s.w.exs && Answered(s.w.exs[e].phase) {
        TrackedIsAnswered(s.w, e);
      }
    }
  }

  ghost predicate CanReturn(s: Waiting) {
    exists moves, end :: Waited(s, moves, end) && end.idle.Back?
  }

  lemma FirstWait(s: Waiting, m: Move)
    requires CanMove(s, m) && CanReturn(Moved(s, m))
    ensures CanReturn(s)
  {
    hide Moved, CanMove;
    var moves, end :| Waited(Moved(s, m), moves, end) && end.idle.Back?;
    assert ([m] + moves)[1..] == moves;
    assert Waited(s, [m] + moves, end);
  }

  lemma {:induction false} GoesFirst(s: Waiting, actions: seq<Action>, w': World)
    requires Run(s.w, actions, w') && CanReturn(s.(w := w'))
    ensures CanReturn(s)
    decreases |actions|
  {
    hide CanReturn, Next;
    if actions == [] {
      assert s.(w := w') == s;
    } else {
      GoesFirst(s.(w := Next(s.w, actions[0])), actions[1..], w');
      FirstWait(s, Goes(actions[0]));
    }
  }

  lemma ReturnsNow(s: Waiting)
    requires CanResume(s.w, s.idle) && s.w.inflight == {}
    ensures CanReturn(s)
  {
    var s' := Moved(s, Resumes);
    assert Waited(s', [], s');
    hide Waited;
    FirstWait(s, Resumes);
  }

  /** With no body tracked, the promises that were waited for have resolved. */
  lemma NothingToWaitFor(w: World, seen: set<ExId>)
    requires Inv(w) && w.inflight == {} && forall e <- seen :: e in w.exs && Answered(w.exs[e].phase)
    ensures AllSettled(w, seen)
  {
    forall e <- seen ensures w.exs[e].phase.Finished? {
      SettledOrFinished(w, e);
    }
    hide Inv;
  }

  lemma {:induction false} BlockedForGood(s: Waiting, moves: seq<Move>, end: Waiting, e: ExId)
    requires Inv(s.w) && Blocks(s.w, e) && !s.idle.Back? && Waited(s, moves, end)
    ensures !end.idle.Back?
    decreases |moves|
  {
    if moves != [] {
      if moves[0].Goes? {
        NextKeeps(s.w, moves[0].a);
        BlocksStays(s.w, moves[0].a, e);
      }
      hide Inv, Next, Enabled;
      BlockedForGood(Moved(s, moves[0]), moves[1..], end, e);
    }
  }

  /** At every point of a call of idle(), it can still return exactly when it has, or no tracked body is
      stuck: a body nobody has is settled by nothing, not even by the idle deadline, which is looked at
      only while a pull is pending. */
  lemma IdleReturnsExactlyWhen(start: Waiting, moves: seq<Move>, s: Waiting)
    requires Reachable(start.w) && start.idle.Looks? && Waited(start, moves, s)
    ensures CanReturn(s) <==> s.idle.Back? || NoneBlocks(s.w)
  {
    ReachableInv(start.w);
    WaitedKeeps(start, moves, s);
    hide Reachable, Inv, Waited;
    if s.idle.Back? {
      assert Waited(s, [], s) by {
        StaysPut(s);
      }
    } else if e :| e in s.w.inflight && Blocks(s.w, e) {
      if CanReturn(s) {
        var more, end :| Waited(s, more, end) && end.idle.Back?;
        BlockedForGood(s, more, end, e);
      }
    } else {
      hide CanReturn;
      DrainedReturns(s);
    }
  }

  lemma StaysPut(s: Waiting)
    ensures Waited(s, [], s)
  {
  }

  lemma DrainedReturns(s: Waiting)
    requires Inv(s.w) && SeenOk(s.w, s.idle) && !s.idle.Back? && NoneBlocks(s.w)
    ensures CanReturn(s)
  {
    hide Inv, CanReturn, Run;
    var actions, w' := Drain(s.w);
    if s.idle.Waits? {
      NothingToWaitFor(w', s.idle.seen);
    }
    ReturnsNow(s.(w := w'));
    GoesFirst(s, actions, w');
  }

  // ---------------------------------------------------------------- the one call of createFetch

  ghost predicate CanEnd(c: Call, maxRedirects: nat) {
    exists moves, end :: CallRun(c, moves, end, maxRedirects) && end.stage.Over?
  }

  /** A body of the call is stuck, and its fetch has not thrown, nor will it over that body. */
  ghost predicate Blocked(c: Call) {
    !c.stage.Threw? && !c.stage.Over? && exists e :: Blocks(c.w, e) && !c.w.exs[e].thrown
  }

  lemma FirstMove(c: Call, m: CallMove, maxRedirects: nat)
    requires CanCall(c, m, maxRedirects) && CanEnd(Called(c, m, maxRedirects), maxRedirects)
    ensures CanEnd(c, maxRedirects)
  {
    hide Called, CanCall;
    var moves, end :| CallRun(Called(c, m, maxRedirects), moves, end, maxRedirects) && end.stage.Over?;
    assert ([m] + moves)[1..] == moves;
    assert CallRun(c, [m] + moves, end, maxRedirects);
  }

  lemma ClosesNow(c: Call, maxRedirects: nat)
    requires CanCall(c, Closes, maxRedirects)
    ensures CanEnd(c, maxRedirects)
  {
    var c' := Called(c, Closes, maxRedirects);
    assert CallRun(c', [], c', maxRedirects);
    hide CallRun, Called;
    FirstMove(c, Closes, maxRedirects);
  }

  lemma {:induction false} InsideFirst(c: Call, actions: seq<Action>, w': World, maxRedirects: nat)
    requires Run(c.w, actions, w') && Quietly(actions) && CanEnd(c.(w := w'), maxRedirects)
    ensures CanEnd(c, maxRedirects)
    decreases |actions|
  {
    hide CanEnd, Next;
    if actions == [] {
      assert c.(w := w') == c;
    } else {
      InsideFirst(c.(w := Next(c.w, actions[0])), actions[1..], w', maxRedirects);
      FirstMove(c, Inside(actions[0]), maxRedirects);
    }
  }

  /** The caller has the response, and every body can settle. */
  lemma HandedEnds(c: Call, maxRedirects: nat)
    requires Inv(c.w) && CallOk(c, maxRedirects) && c.stage.Handed? && NoneBlocks(c.w)
    requires SeenOk(c.w, c.stage.idle)
    ensures CanEnd(c, maxRedirects)
  {
    hide Inv, CanEnd, Run;
    if c.stage.idle.Back? {
      ClosesNow(c, maxRedirects);
    } else {
      var actions, w' := Drain(c.w);
      if c.stage.idle.Waits? {
        NothingToWaitFor(w', c.stage.idle.seen);
      }
      var c' := c.(w := w');
      ClosesNow(Called(c', IdleGoes, maxRedirects), maxRedirects);
      FirstMove(c', IdleGoes, maxRedirects);
      InsideFirst(c, actions, w', maxRedirects);
    }
  }

  lemma GivesUpNow(c: Call, maxRedirects: nat)
    requires CanCall(c, GivesUp, maxRedirects)
    ensures CanEnd(c, maxRedirects)
  {
    hide CanEnd, Next;
    ClosesNow(Called(c, GivesUp, maxRedirects), maxRedirects);
    FirstMove(c, GivesUp, maxRedirects);
  }

  /** One step of the hop under way, and the call can end. */
  lemma StepFirst(c: Call, step: Step, maxRedirects: nat)
    requires c.hops != [] && CanStep(c.w, LastHop(c), step) && !step.Start? && !step.GivenUp?
    requires CanEnd(c.(w := Next(c.w, By(LastHop(c), step))), maxRedirects)
    ensures CanEnd(c, maxRedirects)
  {
    hide CanEnd, Next;
    FirstMove(c, Inside(By(LastHop(c), step)), maxRedirects);
  }

  /** A hop that is not answered can fail, and the fetch throws. */
  lemma FailsNow(c: Call, step: Step, maxRedirects: nat)
    requires c.stage.Following? && c.hops != [] && CanStep(c.w, LastHop(c), step)
    requires step.H2Failed? || step.OpenFailed? || step.Broken?
    requires var w' := Next(c.w, By(LastHop(c), step)); LastHop(c) in w'.exs && w'.exs[LastHop(c)].phase.Failed?
    ensures CanEnd(c, maxRedirects)
  {
    hide CanEnd, Next, CanStep;
    GivesUpNow(c.(w := Next(c.w, By(LastHop(c), step))), maxRedirects);
    StepFirst(c, step, maxRedirects);
  }

  /** How an exchange under way can fail. */
  lemma HowItFails(w: World, e: ExId) returns (step: Step)
    requires Inv(w) && e in w.exs && !Answered(w.exs[e].phase) && !w.exs[e].phase.Failed? && !w.exs[e].phase.Discarding?
    ensures CanStep(w, e, step) && (step.H2Failed? || step.OpenFailed? || step.Broken?)
  {
    View(w, e);
    var phase := w.exs[e].phase;
    hide Inv, PoolOk, Consistent, StoreOk, ExOk;
    step := if phase.H2Wait? then H2Failed else if phase.Opening? || phase.Redialing? then OpenFailed else Broken;
  }

  lemma ItFails(w: World, e: ExId, step: Step)
    requires CanStep(w, e, step) && (step.H2Failed? || step.OpenFailed? || step.Broken?)
    ensures e in Next(w, By(e, step)).exs && Next(w, By(e, step)).exs[e].phase.Failed?
  {
    if step.Broken? {
      BrokenFails(w, e);
    } else {
      hide Drop, Abandon, FromPool, GiveBack, ReadHead, ReadBody, Connected, Dial, DispatchH2, Shelves.Discard;
    }
  }

  lemma BrokenFails(w: World, e: ExId)
    requires CanStep(w, e, Broken)
    ensures e in Next(w, By(e, Broken)).exs && Next(w, By(e, Broken)).exs[e].phase.Failed?
  {
    hide Shelves.Discard;
  }

  lemma UnansweredEnds(c: Call, maxRedirects: nat)
    requires Inv(c.w) && c.stage.Following? && c.hops != [] && LastHop(c) in c.w.exs
    requires !Answered(c.w.exs[LastHop(c)].phase) && !c.w.exs[LastHop(c)].phase.Discarding?
    ensures CanEnd(c, maxRedirects)
  {
    hide Inv, CanEnd, CanStep, Next;
    if c.w.exs[LastHop(c)].phase.Failed? {
      GivesUpNow(c, maxRedirects);
    } else {
      var step := HowItFails(c.w, LastHop(c));
      ItFails(c.w, LastHop(c), step);
      FailsNow(c, step, maxRedirects);
    }
  }

  lemma DiscardingEnds(c: Call, maxRedirects: nat)
    requires Inv(c.w) && c.stage.Following? && c.hops != [] && LastHop(c) in c.w.exs
    requires c.w.exs[LastHop(c)].phase.Discarding?
    ensures CanEnd(c, maxRedirects)
  {
    var e := LastHop(c);
    NextKeeps(c.w, By(e, Redial(0)));
    DialSame(c.w, e, Redialing(c.w.exs[e].phase.spent), 0);
    hide Inv, CanEnd, Dial;
    UnansweredEnds(c.(w := Next(c.w, By(e, Redial(0)))), maxRedirects);
    hide Next;
    StepFirst(c, Redial(0), maxRedirects);
  }

  lemma FollowingEnds(c: Call, maxRedirects: nat)
    requires Inv(c.w) && CallOk(c, maxRedirects) && c.stage.Following? && !Blocked(c)
    ensures CanEnd(c, maxRedirects)
  {
    hide Inv, CanEnd;
    if c.hops == [] {
      GivesUpNow(c, maxRedirects);
    } else {
      var e := LastHop(c);
      assert e in c.w.exs;
      if c.w.exs[e].phase.Discarding? {
        DiscardingEnds(c, maxRedirects);
      } else if !Answered(c.w.exs[e].phase) {
        UnansweredEnds(c, maxRedirects);
      } else if c.w.exs[e].thrown || !c.w.exs[e].unheld {
        GivesUpNow(c, maxRedirects);
      } else {
        HandsOutEnds(c, maxRedirects);
      }
    }
  }

  lemma HandsOutEnds(c: Call, maxRedirects: nat)
    requires Inv(c.w) && CallOk(c, maxRedirects) && !Blocked(c) && CanCall(c, HandsOut, maxRedirects)
    ensures CanEnd(c, maxRedirects)
  {
    hide Inv, CanEnd;
    var c' := Called(c, HandsOut, maxRedirects);
    CallMoveKeeps(c, HandsOut, maxRedirects);
    UnblockedHops(c', maxRedirects);
    HandedEnds(c', maxRedirects);
    FirstMove(c, HandsOut, maxRedirects);
  }

  /** Once the response is handed out, no hop has thrown. */
  lemma UnblockedHops(c: Call, maxRedirects: nat)
    requires Inv(c.w) && CallOk(c, maxRedirects) && c.stage.Handed? && !Blocked(c)
    ensures NoneBlocks(c.w)
    ensures forall e <- c.w.exs :: Good(c.w, e)
  {
    forall e <- c.w.exs ensures Good(c.w, e) {
      assert e in c.hops;
    }
    hide Inv;
  }

  /** The hops before the last were followed, and their bodies cancelled by whoever had them. */
  lemma StuckIsLast(c: Call, e: ExId, maxRedirects: nat)
    requires CallOk(c, maxRedirects) && c.stage.Following? && e in c.w.exs && c.w.exs[e].unheld
    ensures c.hops != [] && e == LastHop(c)
  {
    var i :| 0 <= i < |c.hops| && c.hops[i] == e;
  }

  lemma CallBlocksStays(c: Call, m: CallMove, maxRedirects: nat)
    requires Inv(c.w) && CallOk(c, maxRedirects) && CanCall(c, m, maxRedirects) && Blocked(c)
    ensures Blocked(Called(c, m, maxRedirects))
  {
    var e :| Blocks(c.w, e) && !c.w.exs[e].thrown;
    StuckBlocks(c.w, e);
    if c.stage.Following? {
      StuckIsLast(c, e, maxRedirects);
    }
    hide Inv;
    match m
    case Inside(a) =>
      BlocksStays(c.w, a, e);
      hide Next;
    case NextHop(o, key, room, expired) =>
      BlocksStays(c.w, By(o, Start(key, room, expired)), e);
      hide Next;
    case HandsOut =>
    case GivesUp =>
      assert false;
    case IdleGoes =>
    case Closes =>
      assert false;
  }

  lemma {:induction false} CallBlockedForGood(c: Call, moves: seq<CallMove>, end: Call, maxRedirects: nat)
    requires Inv(c.w) && CallOk(c, maxRedirects) && Blocked(c) && CallRun(c, moves, end, maxRedirects)
    ensures Blocked(end)
    decreases |moves|
  {
    if moves != [] {
      CallMoveKeeps(c, moves[0], maxRedirects);
      CallBlocksStays(c, moves[0], maxRedirects);
      hide Inv, CallOk, Called, Blocked, CanCall;
      CallBlockedForGood(Called(c, moves[0], maxRedirects), moves[1..], end, maxRedirects);
    }
  }

  lemma {:induction false} StagesSeen(c: Call, moves: seq<CallMove>, end: Call, maxRedirects: nat)
    requires Inv(c.w) && CallOk(c, maxRedirects) && CallRun(c, moves, end, maxRedirects)
    requires c.stage.Handed? ==> SeenOk(c.w, c.stage.idle)
    ensures end.stage.Handed? ==> SeenOk(end.w, end.stage.idle)
    decreases |moves|
  {
    if moves != [] {
      CallMoveKeeps(c, moves[0], maxRedirects);
      StageSeen(c, moves[0], maxRedirects);
      hide Inv, CallOk, Called, CanCall, SeenOk;
      StagesSeen(Called(c, moves[0], maxRedirects), moves[1..], end, maxRedirects);
    }
  }

  lemma StageSeen(c: Call, m: CallMove, maxRedirects: nat)
    requires Inv(c.w) && CanCall(c, m, maxRedirects)
    requires c.stage.Handed? ==> SeenOk(c.w, c.stage.idle)
    ensures
      var c' := Called(c, m, maxRedirects);
      c'.stage.Handed? ==> SeenOk(c'.w, c'.stage.idle)
  {
    if c.stage.Handed? {
      if m.Inside? {
        MovedKeeps(Waiting.Waiting(c.w, c.stage.idle), Goes(m.a));
      } else if m.IdleGoes? {
        MovedKeeps(Waiting.Waiting(c.w, c.stage.idle), Resumes);
      }
    }
    hide Inv, Next;
  }

  /** At every point of the one call, its client can still be closed exactly when the call has thrown or
      is over, or no body of it is stuck but one whose building threw.  So it is not, for ever, after a
      205 with a body. */
  lemma EndsExactlyWhen(start: Call, moves: seq<CallMove>, c: Call, maxRedirects: nat)
    requires Beginning(start) && CallRun(start, moves, c, maxRedirects)
    ensures CanEnd(c, maxRedirects) <==> !Blocked(c)
  {
    CallInvariant(start, moves, c, maxRedirects);
    CallInvariant(start, [], start, maxRedirects);
    StagesSeen(start, moves, c, maxRedirects);
    hide Inv, CallOk, CallRun;
    if Blocked(c) {
      if CanEnd(c, maxRedirects) {
        var more, end :| CallRun(c, more, end, maxRedirects) && end.stage.Over?;
        CallBlockedForGood(c, more, end, maxRedirects);
      }
    } else {
      UnblockedEnds(c, maxRedirects);
    }
  }

  lemma UnblockedEnds(c: Call, maxRedirects: nat)
    requires Inv(c.w) && CallOk(c, maxRedirects) && !Blocked(c)
    requires c.stage.Handed? ==> SeenOk(c.w, c.stage.idle)
    ensures CanEnd(c, maxRedirects)
  {
    match c.stage
    case Following => FollowingEnds(c, maxRedirects);
    case Handed(_) =>
      UnblockedHops(c, maxRedirects);
      HandedEnds(c, maxRedirects);
    case Threw => ClosesNow(c, maxRedirects);
    case Over(_) => assert CallRun(c, [], c, maxRedirects);
  }
}
