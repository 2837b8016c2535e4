/** The graceful end of a client: `idle()`, and `createFetch`, which closes its client by it
    (src/client.js). */
module Graceful {
  import opened Protocol
  import opened Safety
  import opened Steps
  import opened Copies
  import opened Shutdown

  // ---------------------------------------------------------------- exchanges only move on

  /** The response was built, and returned to the fetch. */
  predicate Good(w: World, e: ExId) {
    e in w.exs && Answered(w.exs[e].phase) && !w.exs[e].thrown
  }

  /** And it has a body if its head declared one, which the fetch has not turned its back on. */
  predicate Followable(w: World, e: ExId) {
    Good(w, e) && !w.exs[e].unheld
  }

  lemma AnsweredStays(w: World, a: Action, e: ExId)
    requires Enabled(w, a) && e in w.exs && Answered(w.exs[e].phase)
    ensures e in Next(w, a).exs && Answered(Next(w, a).exs[e].phase)
    ensures Next(w, a).exs[e].thrown == w.exs[e].thrown
    ensures Next(w, a).exs[e].unheld == (w.exs[e].unheld || a == By(e, GivenUp))
    ensures w.exs[e].stuck ==> Next(w, a).exs[e].stuck
    ensures w.exs[e].phase.Finished? ==> Next(w, a).exs[e].phase.Finished?
  {
    NextCounts(w, a);
    hide Next;
  }

  lemma KeysStay(w: World, a: Action)
    requires Enabled(w, a)
    ensures Next(w, a).exs.Keys == w.exs.Keys + if a.By? && a.step.Start? then {a.e} else {}
  {
    NextCounts(w, a);
    hide Next;
  }

  lemma SettledOrFinished(w: World, e: ExId)
    requires Inv(w) && e in w.exs && Answered(w.exs[e].phase)
    ensures e in w.inflight <==> !w.exs[e].phase.Finished?
  {
    assert HoldsOk(w, e);
  }

  lemma TrackedIsAnswered(w: World, e: ExId)
    requires Inv(w) && e in w.inflight
    ensures e in w.exs && Answered(w.exs[e].phase)
  {
    assert HoldsOk(w, e);
  }

  /** What idle() waits for: once no body is tracked, none is unsettled, and every HTTP/1.1 connection
      a body had has been given back or closed. */
  lemma IdleMeansSettled(w: World)
    requires Reachable(w) && w.inflight == {}
    ensures forall e <- w.exs ::
              !w.exs[e].phase.Streaming? && !w.exs[e].phase.H2Streaming? && !w.exs[e].phase.Settled?
    ensures forall e <- w.exs :: Holding(w.exs[e].phase).Some? ==>
              w.exs[e].phase.Writing? || w.exs[e].phase.Reading?
  {
    hide Reachable, Inv;
    ReachableInv(w);
    forall e <- w.exs
      ensures !w.exs[e].phase.Streaming? && !w.exs[e].phase.H2Streaming? && !w.exs[e].phase.Settled?
    {
      View(w, e);
    }
  }

  // ---------------------------------------------------------------- idle()

  /** A call of idle(): about to look at the tracked bodies, waiting for those it saw, or returned. */
  datatype Idle = Looks | Waits(seen: set<ExId>) | Back

  /** The promises it waits for have resolved. */
  predicate AllSettled(w: World, seen: set<ExId>) {
    forall e <- seen :: e in w.exs && (w.exs[e].phase.Settled? || w.exs[e].phase.Finished?)
  }

  predicate CanResume(w: World, idle: Idle) {
    idle.Looks? || (idle.Waits? && AllSettled(w, idle.seen))
  }

  /** `while (inflight.size) await Promise.all([...inflight])`, from one await to the next. */
  function Look(w: World): Idle {
    if w.inflight == {} then Back else Waits(w.inflight)
  }

  /** The client goes on, or the call of idle() does. */
  datatype Move = Goes(a: Action) | Resumes

  datatype Waiting = Waiting(w: World, idle: Idle)

  predicate CanMove(s: Waiting, m: Move) {
    match m
    case Goes(a) => Enabled(s.w, a)
    case Resumes => CanResume(s.w, s.idle)
  }

  ghost function Moved(s: Waiting, m: Move): Waiting
    requires CanMove(s, m)
  {
    match m
    case Goes(a) => s.(w := Next(s.w, a))
    case Resumes => s.(idle := Look(s.w))
  }

  ghost predicate Waited(s: Waiting, moves: seq<Move>, end: Waiting)
    decreases |moves|
  {
    if moves == [] then s == end else CanMove(s, moves[0]) && Waited(Moved(s, moves[0]), moves[1..], end)
  }

  /** e's body is tracked at the start of the run or at some point of it. */
  ghost predicate EverTracked(s: Waiting, moves: seq<Move>, e: ExId)
    decreases |moves|
  {
    e in s.w.inflight || (moves != [] && CanMove(s, moves[0]) && EverTracked(Moved(s, moves[0]), moves[1..], e))
  }

  lemma {:induction false} TrackedStaysAnswered(s: Waiting, moves: seq<Move>, end: Waiting, e: ExId)
    requires Inv(s.w) && Waited(s, moves, end)
    requires (e in s.w.exs && Answered(s.w.exs[e].phase)) || EverTracked(s, moves, e)
    ensures Inv(end.w) && e in end.w.exs && Answered(end.w.exs[e].phase)
    decreases |moves|
  {
    hide Inv, Next;
    if e in s.w.inflight {
      TrackedIsAnswered(s.w, e);
    }
    if moves != [] {
      var m := moves[0];
      if m.Goes? {
        NextKeeps(s.w, m.a);
        if e in s.w.exs && Answered(s.w.exs[e].phase) {
          AnsweredStays(s.w, m.a, e);
        }
      }
      TrackedStaysAnswered(Moved(s, m), moves[1..], end, e);
    }
  }

  /** When idle() returns, after whatever else the client did meanwhile, every body that was tracked when
      it was called, or was added while it waited, has finished. */
  lemma IdleReturnsAfterAll(s: Waiting, moves: seq<Move>, mid: Waiting, e: ExId)
    requires Reachable(s.w) && Waited(s, moves, mid)
    requires CanResume(mid.w, mid.idle) && Look(mid.w).Back?
    requires EverTracked(s, moves, e)
    ensures e in mid.w.exs && mid.w.exs[e].phase.Finished?
  {
    hide Inv, Reachable, EverTracked;
    ReachableInv(s.w);
    TrackedStaysAnswered(s, moves, mid, e);
    SettledOrFinished(mid.w, e);
  }

  // ---------------------------------------------------------------- createFetch

  /** The one call of a client that createFetch made: following redirects, its response handed to the
      caller while idle() runs beside, thrown, or over with the client closed. */
  datatype Stage = Following | Handed(idle: Idle) | Threw | Over(threw: bool)

  datatype Call = Call(w: World, stage: Stage, hops: seq<ExId>)

  /** `Inside` is anything the exchanges, their bodies and the peers do.  The fetch goes on to another hop,
      or gives up on the answer it has (the redirect mode is 'error', the budget is spent, the hops loop,
      the Location is bad), only over a redirect, and no redirect withholds its body. */
  datatype CallMove =
    | Inside(a: Action)
    | NextHop(e: ExId, key: Key, room: bool, expired: nat)
    | HandsOut
    | GivesUp
    | IdleGoes
    | Closes

  function LastHop(c: Call): ExId
    requires c.hops != []
  {
    c.hops[|c.hops| - 1]
  }

  predicate CanCall(c: Call, m: CallMove, maxRedirects: nat) {
    match m
    case Inside(a) => Enabled(c.w, a) && !a.Close? && !(a.By? && (a.step.Start? || a.step.GivenUp?))
    case NextHop(e, key, room, expired) =>
      && c.stage.Following? && |c.hops| <= maxRedirects
      && (c.hops != [] ==> Followable(c.w, LastHop(c)))
      && CanStep(c.w, e, Start(key, room, expired))
    case HandsOut => c.stage.Following? && c.hops != [] && Good(c.w, LastHop(c))
    case GivesUp =>
      && c.stage.Following?
      && (c.hops != [] ==>
            LastHop(c) in c.w.exs && var x := c.w.exs[LastHop(c)];
            x.phase.Failed? || (Answered(x.phase) && (x.thrown || !x.unheld)))
    case IdleGoes => c.stage.Handed? && CanResume(c.w, c.stage.idle)
    case Closes => c.stage.Threw? || c.stage == Handed(Back)
  }

  ghost function Called(c: Call, m: CallMove, maxRedirects: nat): Call
    requires CanCall(c, m, maxRedirects)
  {
    match m
    case Inside(a) => c.(w := Next(c.w, a))
    case NextHop(e, key, room, expired) => c.(w := Next(c.w, By(e, Start(key, room, expired))), hops := c.hops + [e])
    case HandsOut => c.(stage := Handed(Looks))
    case GivesUp =>
      c.(stage := Threw,
         w := if c.hops != [] && CanStep(c.w, LastHop(c), GivenUp) then Next(c.w, By(LastHop(c), GivenUp)) else c.w)
    case IdleGoes => c.(stage := Handed(Look(c.w)))
    case Closes => c.(w := Next(c.w, Close), stage := Over(c.stage.Threw?))
  }

  ghost predicate CallRun(c: Call, moves: seq<CallMove>, end: Call, maxRedirects: nat)
    decreases |moves|
  {
    if moves == [] then c == end
    else CanCall(c, moves[0], maxRedirects) && CallRun(Called(c, moves[0], maxRedirects), moves[1..], end, maxRedirects)
  }

  ghost predicate AllFinished(w: World) {
    forall e <- w.exs :: w.exs[e].phase.Finished?
  }

  ghost predicate HopsOk(c: Call, maxRedirects: nat) {
    && |c.hops| <= maxRedirects + 1
    && (forall e :: e in c.w.exs <==> e in c.hops)
    && (forall i | 0 <= i < |c.hops| - 1 :: Good(c.w, c.hops[i]))
    && (!c.stage.Threw? && !c.stage.Over? ==> forall i | 0 <= i < |c.hops| - 1 :: Followable(c.w, c.hops[i]))
  }

  /** What holds at every point of the call. */
  ghost predicate CallOk(c: Call, maxRedirects: nat) {
    && HopsOk(c, maxRedirects)
    && (c.w.closed <==> c.stage.Over?)
    && (c.stage.Handed? || c.stage == Over(false) ==> forall e <- c.hops :: Good(c.w, e))
    && (c.stage == Handed(Back) || c.stage == Over(false) ==> AllFinished(c.w))
  }

  lemma GoodStays(w: World, a: Action, e: ExId)
    requires Enabled(w, a) && Good(w, e)
    ensures Good(Next(w, a), e)
  {
    AnsweredStays(w, a, e);
  }

  lemma FollowableStays(w: World, a: Action, e: ExId)
    requires Enabled(w, a) && Followable(w, e) && !(a.By? && a.step.GivenUp?)
    ensures Followable(Next(w, a), e)
  {
    AnsweredStays(w, a, e);
  }

  lemma InsideKeeps(c: Call, a: Action, maxRedirects: nat)
    requires CallOk(c, maxRedirects) && CanCall(c, Inside(a), maxRedirects)
    ensures CallOk(Called(c, Inside(a), maxRedirects), maxRedirects)
  {
    var w' := Next(c.w, a);
    hide Good, Followable, Next;
    KeysStay(c.w, a);
    ClosedStays(c.w, a);
    GoodsStay(c.w, a);
    if AllFinished(c.w) {
      forall e <- w'.exs ensures w'.exs[e].phase.Finished? {
        AnsweredStays(c.w, a, e);
      }
    }
  }

  lemma GoodsStay(w: World, a: Action)
    requires Enabled(w, a)
    ensures forall e :: Good(w, e) ==> Good(Next(w, a), e)
    ensures !(a.By? && a.step.GivenUp?) ==> forall e :: Followable(w, e) ==> Followable(Next(w, a), e)
  {
    hide Next, Enabled, Good, Followable;
    forall e | Good(w, e) ensures Good(Next(w, a), e) {
      GoodStays(w, a, e);
    }
    if !(a.By? && a.step.GivenUp?) {
      forall e | Followable(w, e) ensures Followable(Next(w, a), e) {
        FollowableStays(w, a, e);
      }
    }
  }

  lemma HopKeeps(c: Call, m: CallMove, maxRedirects: nat)
    requires CallOk(c, maxRedirects) && m.NextHop? && CanCall(c, m, maxRedirects)
    ensures CallOk(Called(c, m, maxRedirects), maxRedirects)
  {
    var a := By(m.e, Start(m.key, m.room, m.expired));
    var w' := Next(c.w, a);
    KeysStay(c.w, a);
    ClosedStays(c.w, a);
    GoodsStay(c.w, a);
    hide Followable, Next;
    var hops' := c.hops + [m.e];
    forall i | 0 <= i < |hops'| - 1 ensures Good(w', hops'[i]) && Followable(w', hops'[i]) {
      assert Followable(c.w, c.hops[i]);
      assert Good(c.w, c.hops[i]);
    }
    hide Good;
  }

  lemma GivesUpKeeps(c: Call, maxRedirects: nat)
    requires CallOk(c, maxRedirects) && CanCall(c, GivesUp, maxRedirects)
    requires c.hops != [] && CanStep(c.w, LastHop(c), GivenUp)
    ensures CallOk(Called(c, GivesUp, maxRedirects), maxRedirects)
  {
    var a := By(LastHop(c), GivenUp);
    KeysStay(c.w, a);
    ClosedStays(c.w, a);
    GoodsStay(c.w, a);
    hide Good, Followable, Next;
  }

  lemma {:induction false} CallKeeps(c: Call, moves: seq<CallMove>, end: Call, maxRedirects: nat)
    requires Inv(c.w) && CallOk(c, maxRedirects) && CallRun(c, moves, end, maxRedirects)
    ensures Inv(end.w) && CallOk(end, maxRedirects)
    decreases |moves|
  {
    if moves != [] {
      CallMoveKeeps(c, moves[0], maxRedirects);
      hide Inv, CallOk, Called;
      CallKeeps(Called(c, moves[0], maxRedirects), moves[1..], end, maxRedirects);
    }
  }

  lemma CallMoveKeeps(c: Call, m: CallMove, maxRedirects: nat)
    requires Inv(c.w) && CallOk(c, maxRedirects) && CanCall(c, m, maxRedirects)
    ensures Inv(Called(c, m, maxRedirects).w) && CallOk(Called(c, m, maxRedirects), maxRedirects)
  {
    hide Inv, Next;
    match m
    case Inside(a) =>
      NextKeeps(c.w, a);
      InsideKeeps(c, a, maxRedirects);
    case NextHop(e, key, room, expired) =>
      NextKeeps(c.w, By(e, Start(key, room, expired)));
      HopKeeps(c, m, maxRedirects);
    case HandsOut =>
    case GivesUp =>
      if c.hops != [] && CanStep(c.w, LastHop(c), GivenUp) {
        NextKeeps(c.w, By(LastHop(c), GivenUp));
        GivesUpKeeps(c, maxRedirects);
      }
    case IdleGoes => IdleKeeps(c, maxRedirects);
    case Closes =>
      NextKeeps(c.w, Close);
      ClosesKeeps(c, maxRedirects);
  }

  lemma IdleKeeps(c: Call, maxRedirects: nat)
    requires Inv(c.w) && CallOk(c, maxRedirects) && CanCall(c, IdleGoes, maxRedirects)
    ensures CallOk(Called(c, IdleGoes, maxRedirects), maxRedirects)
  {
    hide Inv;
    if Look(c.w).Back? {
      forall e <- c.w.exs ensures c.w.exs[e].phase.Finished? {
        assert e in c.hops && Good(c.w, e);
        SettledOrFinished(c.w, e);
      }
    }
  }

  lemma ClosePhases(w: World)
    ensures
      var w' := Next(w, Close);
      && w'.closed && w'.exs.Keys == w.exs.Keys
      && forall e <- w.exs :: w'.exs[e].phase == w.exs[e].phase
  {
    PeerLeaves(w, Close);
    hide Next;
    forall e <- w.exs ensures Next(w, Close).exs[e].phase == w.exs[e].phase {}
  }

  lemma ClosesKeeps(c: Call, maxRedirects: nat)
    requires CallOk(c, maxRedirects) && CanCall(c, Closes, maxRedirects)
    ensures CallOk(Called(c, Closes, maxRedirects), maxRedirects)
  {
    ClosePhases(c.w);
    GoodsStay(c.w, Close);
    hide Next, Good, Followable;
  }

  /** A fetch about to begin, on the client that createFetch makes for it. */
  ghost predicate Beginning(c: Call) {
    Untouched(c.w) && c.stage == Following && c.hops == []
  }

  lemma CallInvariant(start: Call, moves: seq<CallMove>, end: Call, maxRedirects: nat)
    requires Beginning(start) && CallRun(start, moves, end, maxRedirects)
    ensures Inv(end.w) && CallOk(end, maxRedirects)
  {
    InitOk(start.w.strict, start.w.tlsAlpn, start.w.http2, start.w.pool.maxPerKey, start.w.pool.maxTotal);
    hide Inv, CallRun;
    assert CallOk(start, maxRedirects);
    CallKeeps(start, moves, end, maxRedirects);
  }

  /** In every run of the one call, the client is closed exactly when the call is over; and when it closes
      without the fetch having thrown, every body has finished, whatever is read, cancelled, broken or
      redirected on the way and in whatever order. */
  lemma ClosesAfterBodies(start: Call, moves: seq<CallMove>, end: Call, maxRedirects: nat)
    requires Beginning(start) && CallRun(start, moves, end, maxRedirects)
    ensures end.w.closed <==> end.stage.Over?
    ensures CanCall(end, Closes, maxRedirects) && end.stage.Handed? ==> forall e <- end.w.exs :: end.w.exs[e].phase.Finished?
    ensures end.stage == Over(false) ==> forall e <- end.w.exs :: end.w.exs[e].phase.Finished?
  {
    hide Inv, CallRun;
    CallInvariant(start, moves, end, maxRedirects);
  }

  /** However its redirects, refused streams and re-sends fall, a whole fetch writes at most three times
      as many requests as it may make hops. */
  lemma FetchWrites(start: Call, moves: seq<CallMove>, end: Call, maxRedirects: nat)
    requires Beginning(start) && CallRun(start, moves, end, maxRedirects)
    ensures forall e <- end.w.exs :: e in end.hops
    ensures WritesOf(end.w, end.hops) <= 3 * (maxRedirects + 1)
  {
    hide Inv, CallRun;
    CallInvariant(start, moves, end, maxRedirects);
    WritesPerHop(end.w, end.hops);
  }
}
