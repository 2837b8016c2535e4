/** The Client of src/client.js as a protocol.

    Any number of exchanges interleave at their `await` points, with servers that answer, refuse,
    tear a response or hang up whenever they like, and with `close()`.  A step is what runs between
    two awaits.  `World` holds what the program holds (the pool, the registry of HTTP/2 connections,
    the tracked bodies, the ticket store) together with what it cannot see: what is on the wire, what
    a server has processed, who owns a connection. */
module Protocol {
  import opened Wrappers
  import opened Shelves
  import opened Registry
  import opened Tickets
  import opened Negotiation

  type Key = string
  type ExId = nat
  type ConnId = nat

  // ---------------------------------------------------------------- an HTTP/1.1 connection

  /** How the end of a body is known: after `len` units, or when the peer hangs up. */
  datatype Framing = Determinate(len: nat) | UntilClose

  /** What a server puts on the wire, tagged with the request it answers.  The client never reads a
      tag.  A torn head is a response cut off inside its head; `silent` says whether the head reader
      takes what it got of it for a request that was never seen (module Tears says which texts those are,
      and that both cases occur). */
  datatype Item =
    | Head(req: ExId, status: nat, framing: Framing, keepAlive: bool)
    | Body(req: ExId)
    | Torn(req: ExId, silent: bool)

  /** A message of this status never has a body, whatever its header fields say. */
  predicate NoBody(status: nat) {
    status == 204 || status == 304
  }

  /** A Response of this status cannot be given one. */
  predicate NullBody(status: nat) {
    status in {101, 204, 205, 304}
  }

  /** There is a body on the wire that the Response will not have: a 205 that declares one. */
  predicate Withholds(head: Item)
    requires head.Head?
  {
    NullBody(head.status) && head.framing != Determinate(0)
  }

  /** What a server is doing: nothing, processing a request, or sending its body. */
  datatype Answer =
    | Waiting
    | Working(req: ExId)
    | Sending(req: ExId, left: Framing)

  datatype Owner =
    | HeldBy(ex: ExId)   // an exchange, or the body it returned
    | Idle               // the pool
    | Closed
    | Lost               // still open, and nothing will ever close it

  datatype Conn = Conn(
    key: Key,
    owner: Owner,
    open: bool,
    spoiled: bool,        // closed by a failure after its body was already being tracked
    picked: Option<Proto>, // what its server picked; with HTTP/2 it expects that on it
    queue: seq<ExId>,     // requests received and not yet looked at
    answer: Answer,
    wire: seq<Item>,      // sent and not yet read
    said: bool,           // its server's last answer let it be kept
    hungUp: bool)

  // ---------------------------------------------------------------- one exchange

  /** How the connection an exchange is using was come by. */
  datatype Via = Pooled | Fresh | Resent(replaced: ConnId)

  datatype Phase =
    | H2Wait(h: H2Id, shared: bool)
    | H2Streaming(h: H2Id)
    | Opening
    | Writing(conn: ConnId, via: Via)
    | Reading(conn: ConnId, via: Via)
    | Discarding(spent: ConnId)
    | Redialing(spent: ConnId)
    | Streaming(conn: ConnId, left: Framing, keepAlive: bool)
    | Settled
    | Finished
    | Failed

  /** Where the last copy of the request went. */
  datatype Attempt = Nowhere | OnH2 | OnH1(conn: ConnId)

  datatype Exchange = Exchange(
    key: Key,
    phase: Phase,
    attempt: Attempt,
    writes: nat,      // copies of the request written
    proofs: nat,      // failures taken as proof that a copy was not processed
    processed: nat,   // copies a server did process
    live: bool,       // the last copy is one of those
    slips: nat,       // proofs that were wrong: the copy had been processed
    thrown: bool,     // building the response threw, and the deadlines of the body are disposed of
    unheld: bool,     // nobody has the body that is tracked
    stuck: bool,      // nor will anything pull it: what reads ahead of a reader has read its fill
    got: seq<ExId>)   // tags of everything read as this exchange's response

  datatype World = World(
    strict: bool,     // trust.revocation is 'require-staple'
    tlsAlpn: Option<Offer>, // the caller's own tls.alpn
    http2: bool,      // false when the http2 option is false
    closed: bool,
    pool: Shelf<ConnId>,
    registry: Register,
    inflight: set<ExId>,
    store: Store,
    conns: map<ConnId, Conn>,
    exs: map<ExId, Exchange>)

  function Init(strict: bool, tlsAlpn: Option<Offer>, http2: bool, maxPerKey: nat, maxTotal: nat): World {
    World(strict, tlsAlpn, http2, false, Empty(maxPerKey, maxTotal), NoConnections(), {}, NoTickets(), map[], map[])
  }

  // ---------------------------------------------------------------- pieces of a step

  function SetPhase(w: World, e: ExId, phase: Phase): World
    requires e in w.exs
  {
    w.(exs := w.exs[e := w.exs[e].(phase := phase)])
  }

  function Holding(phase: Phase): Option<ConnId> {
    match phase
    case Writing(c, _) => Some(c)
    case Reading(c, _) => Some(c)
    case Streaming(c, _, _) => Some(c)
    case _ => None
  }

  /** A copy of the request is written to `c`. */
  function Sent(x: Exchange, c: ConnId, via: Via): Exchange {
    x.(phase := Writing(c, via), attempt := OnH1(c), live := false, writes := x.writes + 1)
  }

  function Carrying(conn: Conn, e: ExId): Conn {
    conn.(owner := HeldBy(e), queue := conn.queue + [e])
  }

  function NewConn(key: Key, picked: Option<Proto>): Conn {
    Conn(key, Closed, true, false, picked, [], Waiting, [], true, false)
  }

  function Shut(conn: Conn): Conn {
    conn.(owner := Closed, open := false)
  }

  /** pool.discard on a connection that its exchange holds. */
  function Drop(w: World, c: ConnId): World
    requires c in w.conns
  {
    w.(pool := Shelves.Discard(w.pool, c), conns := w.conns[c := Shut(w.conns[c])])
  }

  /** What the catch handlers close when an exchange fails after dialling or taking `c`: the
      connection itself, unless it replaced a pooled one, in which case the pooled one is closed a
      second time and `c` is forgotten. */
  function Abandon(w: World, c: ConnId, via: Via): World
    requires c in w.conns
  {
    match via
    case Resent(replaced) =>
      w.(pool := Shelves.Discard(w.pool, replaced), conns := w.conns[c := w.conns[c].(owner := Lost)])
    case _ => Drop(w, c)
  }

  /** The connection evicted by a release, if any. */
  ghost function Victim(s: Shelf<ConnId>, key: Key, eligible: bool): Option<ConnId> {
    if !s.closed && eligible && Full(s, key) && Listed(s.lists, key) != []
    then Some(Listed(s.lists, key)[0]) else None
  }

  function ShutIf(conns: map<ConnId, Conn>, victim: Option<ConnId>): map<ConnId, Conn> {
    if victim.Some? && victim.value in conns then conns[victim.value := Shut(conns[victim.value])] else conns
  }

  /** pool.release, and what it closes. */
  ghost function GiveBack(w: World, c: ConnId, eligible: bool): World
    requires c in w.conns
  {
    var key := w.conns[c].key;
    var (pool, kept) := Shelves.Release(w.pool, key, c, eligible);
    var mine := if kept then w.conns[c].(owner := Idle) else Shut(w.conns[c]);
    w.(pool := pool, conns := ShutIf(w.conns, Victim(w.pool, key, eligible))[c := mine])
  }

  /** Dial a new connection, offering the freshest ticket that has not expired. */
  function Dial(w: World, e: ExId, phase: Phase, expired: nat): World
    requires e in w.exs
  {
    var w' := SetPhase(w, e, phase);
    if w.strict then w' else w'.(store := Tickets.Take(w.store, w.exs[e].key, expired).0)
  }

  /** From src/client.js:406 on: a pooled connection if there is one, a fresh one otherwise. */
  function FromPool(w: World, e: ExId, expired: nat): World
    requires e in w.exs
  {
    var (pool, taken) := Shelves.Take(w.pool, w.exs[e].key);
    match taken
    case PoolClosed => SetPhase(w, e, Failed)
    case Miss => Dial(w.(pool := pool), e, Opening, expired)
    case Hit(c) =>
      if c in w.conns then
        w.(pool := pool,
           exs := w.exs[e := Sent(w.exs[e], c, Pooled)],
           conns := w.conns[c := Carrying(w.conns[c], e)])
      else w
  }

  function DispatchH2(w: World, e: ExId, h: H2Id, shared: bool): World
    requires e in w.exs
  {
    w.(exs := w.exs[e := w.exs[e].(phase := H2Wait(h, shared), attempt := OnH2, live := false,
                                   writes := w.exs[e].writes + 1)])
  }

  /** The last copy is taken to be unprocessed; if it was processed after all, that is a slip. */
  function Disowned(x: Exchange): Exchange {
    x.(attempt := Nowhere, live := false, proofs := x.proofs + 1,
       slips := x.slips + if x.live then 1 else 0)
  }

  function Processed(x: Exchange): Exchange {
    x.(processed := x.processed + 1, live := true)
  }

  // ---------------------------------------------------------------- what an exchange does

  datatype Step =
    | Start(key: Key, room: bool, expired: nat)
    | H2Refused(expired: nat)
    | H2Failed
    | H2Answered(throws: bool, withholds: bool)
    | H2Ended
    | Opened(id: nat, pick: Option<Proto>)
    | OpenFailed
    | WriteDone
    | Broken
    | NeverSaw
    | Redial(expired: nat)
    | Redialed(c: ConnId, pick: Option<Proto>)
    | HeadRead(throws: bool)
    | BodyRead
    | BodyDone
    | BodyCancelled
    | BodyBroke
    | GivenUp   // the fetch throws over an answer, without a word to its body
    | Sticks
    | Untrack

  /** Whether the failure of the head read reports that not one byte had come back. */
  predicate SawNothing(conn: Conn) {
    conn.hungUp && (conn.wire == [] || (conn.wire[0].Torn? && conn.wire[0].silent))
  }

  predicate CanStep(w: World, e: ExId, step: Step) {
    if step.Start? then e !in w.exs
    else
      && e in w.exs && Ready(w, w.exs[e].phase, step)
      && (step.H2Answered? ==> w.exs[e].live)
      && (step.BodyCancelled? ==> !w.exs[e].thrown)
      && (Settles(step) ==> !w.exs[e].stuck)
      && (step.GivenUp? ==> !w.exs[e].unheld)
      && (step.Sticks? ==> w.exs[e].unheld && !w.exs[e].stuck && ReadAhead(w.exs[e]))
  }

  /** The steps in which somebody pulls a body, or has a pull of it pending. */
  predicate Settles(step: Step) {
    step.BodyRead? || step.BodyDone? || step.BodyCancelled? || step.BodyBroke? || step.H2Ended?
  }

  /** With HTTP/1.1, the raw stream and the guarded one around it each hold a chunk, and more is to come.
      With HTTP/2 the guarded one holds a chunk and the stream has ended: until then its failure, or
      an abort, would settle the body without a pull. */
  predicate ReadAhead(x: Exchange) {
    x.phase.H2Streaming? || (x.phase.Streaming? && x.phase.left != Determinate(0) && |x.got| > 2)
  }

  predicate Ready(w: World, phase: Phase, step: Step) {
    match step
    case Start(_, _, _) => false
    case H2Refused(_) => phase.H2Wait? && phase.shared
    case H2Failed => phase.H2Wait?
    case H2Answered(_, _) => phase.H2Wait?
    case H2Ended => phase.H2Streaming?
    case Opened(id, pick) =>
      && phase.Opening? && MayPick(FirstOffer(w.tlsAlpn, w.http2), pick)
      && (if pick == Some(Http2) then id !in w.registry.known else id !in w.conns)
    case OpenFailed => phase.Opening? || phase.Redialing?
    case WriteDone => phase.Writing?
    case Broken => (phase.Writing? || phase.Reading?) && phase.conn in w.conns
    case NeverSaw =>
      phase.Reading? && phase.via.Pooled? && phase.conn in w.conns && SawNothing(w.conns[phase.conn])
    case Redial(_) => phase.Discarding?
    case Redialed(c, pick) =>
      phase.Redialing? && c !in w.conns && MayPick(SecondOffer(w.tlsAlpn), pick)
    case HeadRead(_) =>
      && phase.Reading? && phase.conn in w.conns
      && w.conns[phase.conn].wire != [] && w.conns[phase.conn].wire[0].Head?
    case BodyRead =>
      && phase.Streaming? && phase.conn in w.conns
      && w.conns[phase.conn].wire != [] && phase.left != Determinate(0)
    case BodyDone => phase.Streaming? && phase.conn in w.conns && AtEnd(w.conns[phase.conn], phase.left)
    case BodyCancelled => phase.Streaming? && phase.conn in w.conns
    case BodyBroke => phase.Streaming? && phase.conn in w.conns
    case GivenUp => phase.Streaming? || phase.H2Streaming?
    case Sticks => phase.Streaming? || phase.H2Streaming?
    case Untrack => phase.Settled?
  }

  /** The body has ended as its framing declared. */
  predicate AtEnd(conn: Conn, left: Framing) {
    match left
    case Determinate(n) => n == 0
    case UntilClose => conn.hungUp && conn.wire == []
  }

  function LessOne(left: Framing): Framing {
    if left.Determinate? && left.len > 0 then Determinate(left.len - 1) else left
  }

  function Unstarted(key: Key): Exchange {
    Exchange(key, Failed, Nowhere, 0, 0, 0, false, 0, false, false, false, [])
  }

  function Begin(w: World, e: ExId, key: Key, room: bool, expired: nat): World {
    var w' := w.(exs := w.exs[e := Unstarted(key)]);
    if Current(w.registry, key).Some? && room
    then DispatchH2(w', e, Current(w.registry, key).value, true)
    else FromPool(w', e, expired)
  }

  function ReadHead(w: World, e: ExId, throws: bool): World
    requires CanStep(w, e, HeadRead(throws))
  {
    var Reading(c, via) := w.exs[e].phase;
    var head := w.conns[c].wire[0];
    var read := w.conns[c].(wire := w.conns[c].wire[1..]);
    var w' := w.(
      exs := w.exs[e := w.exs[e].(phase := Streaming(c, head.framing, head.keepAlive), thrown := throws,
                                  unheld := throws || Withholds(head), got := w.exs[e].got + [head.req])],
      inflight := w.inflight + {e});
    // The completion handlers are in place; what is thrown now still reaches the catch handler.
    if !throws then w'.(conns := w.conns[c := read])
    else if via.Resent? then
      w'.(conns := w.conns[c := read], pool := Shelves.Discard(w.pool, via.replaced))
    else
      w'.(conns := w.conns[c := read.(open := false, spoiled := true)], pool := Shelves.Discard(w.pool, c))
  }

  function ReadBody(w: World, e: ExId): World
    requires CanStep(w, e, BodyRead)
  {
    var Streaming(c, left, keepAlive) := w.exs[e].phase;
    var wire := w.conns[c].wire;
    w.(exs := w.exs[e := w.exs[e].(phase := Streaming(c, LessOne(left), keepAlive),
                                   got := w.exs[e].got + [wire[0].req])],
       conns := w.conns[c := w.conns[c].(wire := wire[1..])])
  }

  function Connected(w: World, e: ExId, c: ConnId, via: Via, picked: Option<Proto>): World
    requires e in w.exs
  {
    w.(exs := w.exs[e := Sent(w.exs[e], c, via)],
       conns := w.conns[c := Carrying(NewConn(w.exs[e].key, picked), e)])
  }

  ghost function Stepped(w: World, e: ExId, step: Step): World
    requires CanStep(w, e, step)
  {
    if step.Start? then Begin(w, e, step.key, step.room, step.expired)
    else
      var x, phase := w.exs[e], w.exs[e].phase;
      match step
      case H2Refused(expired) =>
        FromPool(w.(exs := w.exs[e := Disowned(x).(phase := Failed)]), e, expired)
      case H2Failed => SetPhase(w, e, Failed)
      case H2Answered(throws, withholds) =>
        w.(exs := w.exs[e := x.(phase := H2Streaming(phase.h), thrown := throws, unheld := throws || withholds)],
           inflight := w.inflight + {e})
      case H2Ended => SetPhase(w, e, Settled)
      case Opened(id, pick) =>
        if pick == Some(Http2)
        then DispatchH2(w.(registry := Registry.Add(w.registry, x.key, id)), e, id, false)
        else Connected(w, e, id, Fresh, pick)
      case OpenFailed =>
        if phase.Redialing?
        then SetPhase(w, e, Failed).(pool := Shelves.Discard(w.pool, phase.spent))
        else SetPhase(w, e, Failed)
      case WriteDone => SetPhase(w, e, Reading(phase.conn, phase.via))
      case Broken => SetPhase(Abandon(w, phase.conn, phase.via), e, Failed)
      case NeverSaw =>
        Drop(w.(exs := w.exs[e := Disowned(x).(phase := Discarding(phase.conn))]), phase.conn)
      case Redial(expired) => Dial(w, e, Redialing(phase.spent), expired)
      case Redialed(c, pick) => Connected(w, e, c, Resent(phase.spent), pick)
      case HeadRead(throws) => ReadHead(w, e, throws)
      case BodyRead => ReadBody(w, e)
      case BodyDone =>
        SetPhase(GiveBack(w, phase.conn, phase.left.Determinate? && phase.keepAlive), e, Settled)
      case BodyCancelled => SetPhase(GiveBack(w, phase.conn, false), e, Settled)
      case BodyBroke => SetPhase(Drop(w, phase.conn), e, Settled)
      case GivenUp => w.(exs := w.exs[e := x.(unheld := true)])
      case Sticks => w.(exs := w.exs[e := x.(stuck := true)])
      case Untrack => SetPhase(w, e, Finished).(inflight := w.inflight - {e})
  }

  // ---------------------------------------------------------------- what the peers do

  /** An HTTP/1.1 server on one connection. */
  datatype Event =
    | Takes
    | Answers(status: nat, framing: Framing, keepAlive: bool)
    | Tears(silent: bool)
    | Sends
    | HangsUp

  predicate CanServe(conn: Conn, event: Event) {
    match event
    case Takes => !conn.hungUp && conn.picked != Some(Http2) && conn.queue != [] && conn.answer.Waiting?
    case Answers(status, framing, _) =>
      && !conn.hungUp && conn.answer.Working?
      && status >= 200 && (NoBody(status) ==> framing == Determinate(0))
    case Tears(_) => !conn.hungUp && conn.answer.Working?
    case Sends => !conn.hungUp && conn.answer.Sending?
    case HangsUp => true
  }

  function Continue(req: ExId, left: Framing): Answer {
    if left == Determinate(0) then Waiting else Sending(req, left)
  }

  function Serve(conn: Conn, event: Event): Conn
    requires CanServe(conn, event)
  {
    match event
    case Takes => conn.(queue := conn.queue[1..], answer := Working(conn.queue[0]))
    case Answers(status, framing, keepAlive) =>
      var req := conn.answer.req;
      conn.(wire := conn.wire + [Head(req, status, framing, keepAlive)], said := keepAlive,
            answer := Continue(req, framing))
    case Tears(silent) =>
      conn.(wire := conn.wire + [Torn(conn.answer.req, silent)], hungUp := true)
    case Sends =>
      var req := conn.answer.req;
      conn.(wire := conn.wire + [Body(req)], answer := Continue(req, LessOne(conn.answer.left)))
    case HangsUp => conn.(hungUp := true)
  }

  datatype Action =
    | By(e: ExId, step: Step)
    | On(c: ConnId, event: Event)
    | TakesH2(e: ExId)
    | GoesAway(h: H2Id)
    | Dies(h: H2Id)
    | TicketOnH1(c: ConnId, t: TicketId)
    | TicketOnH2(h: H2Id, t: TicketId)
    | Close

  predicate Enabled(w: World, a: Action) {
    match a
    case By(e, step) => CanStep(w, e, step)
    case On(c, event) =>
      && c in w.conns && CanServe(w.conns[c], event)
      && (event.Takes? ==> w.conns[c].queue[0] in w.exs)
    case TakesH2(e) => e in w.exs && w.exs[e].attempt.OnH2? && !w.exs[e].live
    case GoesAway(h) => h in w.registry.known
    case Dies(h) => h in w.registry.known
    case TicketOnH1(c, t) => c in w.conns && t !in w.store.earned
    case TicketOnH2(h, t) => h in w.registry.known && t !in w.store.earned
    case Close => true
  }

  function Served(w: World, c: ConnId, event: Event): World
    requires Enabled(w, On(c, event))
  {
    var w' := w.(conns := w.conns[c := Serve(w.conns[c], event)]);
    if event.Takes?
    then w'.(exs := w.exs[w.conns[c].queue[0] := Processed(w.exs[w.conns[c].queue[0]])]) else w'
  }

  /** Nothing listens for tickets under require-staple, and a closed client drops them. */
  function Captured(w: World, key: Key, t: TicketId): World {
    if w.strict || w.closed then w else w.(store := Tickets.Put(w.store, key, t))
  }

  ghost function Closing(w: World): World {
    w.(closed := true,
       store := Tickets.Clear(w.store),
       registry := Registry.CloseAll(w.registry),
       pool := Shelves.CloseAll(w.pool),
       conns := map c <- w.conns :: if w.conns[c].owner.Idle? then Shut(w.conns[c]) else w.conns[c])
  }

  ghost function Next(w: World, a: Action): World
    requires Enabled(w, a)
  {
    match a
    case By(e, step) => Stepped(w, e, step)
    case On(c, event) => Served(w, c, event)
    case TakesH2(e) => w.(exs := w.exs[e := Processed(w.exs[e])])
    case GoesAway(h) => w.(registry := Registry.GoAway(w.registry, h))
    case Dies(h) => w.(registry := Registry.Die(w.registry, h))
    case TicketOnH1(c, t) => Captured(w, w.conns[c].key, t)
    case TicketOnH2(h, t) => Captured(w, w.registry.known[h].key, t)
    case Close => Closing(w)
  }

  /** `actions` can happen from `w`, one after another, and lead to `end`. */
  ghost predicate Run(w: World, actions: seq<Action>, end: World)
    decreases |actions|
  {
    if actions == [] then w == end
    else Enabled(w, actions[0]) && Run(Next(w, actions[0]), actions[1..], end)
  }
}
