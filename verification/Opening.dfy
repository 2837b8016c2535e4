/** `openConnection` of src/transport.js: the tunnel, the TLS session and the deadline, and who closes
    them.  The dial, the handshake and the deadline go on at their own pace beside the call, which only
    awaits the race of one of them against the deadline. */
module Opening {
  import opened Wrappers

  // ---------------------------------------------------------------- one call, from await to await

  /** A promise the call has made, or not yet. */
  datatype Task = Unborn | Pending | Done | Broken

  /** `deadlines.race`: whichever comes first decides it, and the loser goes on. */
  datatype Race = Undecided | Won | Lost

  datatype Stage = Connecting | Shaking | Closing | Returned | Threw

  datatype Attempt = Attempt(
    secure: bool,
    owns: bool,          // the deadline was made here, not borrowed
    fired: bool,
    disposed: bool,
    dial: Task,
    dialRace: Race,
    tunnelOpen: bool,
    shake: Task,
    shakeRace: Race,
    sessionOpen: bool,
    stage: Stage)

  /** Dialling has begun, unless the deadline had fired: then no socket is asked for. */
  function Began(secure: bool, owns: bool, aborted: bool): Attempt {
    Attempt(secure, owns, aborted, false, if aborted then Broken else Pending, if aborted then Lost else Undecided,
            false, Unborn, Undecided, false, Connecting)
  }

  datatype Action =
    | Fires                        // a timer of the deadline, or the caller's signal
    | DialDone(ok: bool)
    | ShakeDone(ok: bool)
    | Resumes                      // the call goes on after an await
    | Closes(sessionThrows: bool)  // the caller closes the connection it was given

  predicate Enabled(a: Attempt, action: Action) {
    match action
    case Fires => !a.fired && !a.disposed
    case DialDone(_) => a.dial.Pending?
    case ShakeDone(_) => a.shake.Pending?
    case Resumes =>
      match a.stage {
        case Connecting => !a.dialRace.Undecided?
        case Shaking => !a.shakeRace.Undecided?
        case Closing => true
        case _ => false
      }
    case Closes(_) => a.stage.Returned?
  }

  function Decided(race: Race, won: bool): Race {
    if race.Undecided? then (if won then Won else Lost) else race
  }

  function Ended(ok: bool): Task {
    if ok then Done else Broken
  }

  function Stepped(a: Attempt, action: Action): Attempt
    requires Enabled(a, action)
  {
    match action
    case Fires =>
      a.(fired := true, dialRace := Decided(a.dialRace, false),
         shakeRace := if a.shake.Unborn? then a.shakeRace else Decided(a.shakeRace, false))
    case DialDone(ok) => a.(dial := Ended(ok), tunnelOpen := ok, dialRace := Decided(a.dialRace, ok))
    case ShakeDone(ok) => a.(shake := Ended(ok), sessionOpen := ok, shakeRace := Decided(a.shakeRace, ok))
    case Resumes => Resumed(a)
    case Closes(sessionThrows) => a.(tunnelOpen := false, sessionOpen := a.sessionOpen && sessionThrows)
  }

  function Resumed(a: Attempt): Attempt
    requires Enabled(a, Resumes)
  {
    match a.stage
    case Connecting =>
      if a.dialRace.Lost? then a.(stage := Threw, disposed := a.owns)
      else if a.secure
      then a.(stage := Shaking, shake := Pending, shakeRace := if a.fired then Lost else Undecided)
      else a.(stage := Returned)
    case Shaking =>
      if a.shakeRace.Won? then a.(stage := Returned) else a.(stage := Closing, tunnelOpen := false)
    case _ => a.(stage := Threw, disposed := a.owns)
  }

  predicate Run(a: Attempt, actions: seq<Action>, end: Attempt)
    decreases |actions|
  {
    if actions == [] then a == end
    else Enabled(a, actions[0]) && Run(Stepped(a, actions[0]), actions[1..], end)
  }

  // ---------------------------------------------------------------- what holds throughout

  predicate AttemptOk(a: Attempt) {
    && !a.dial.Unborn?
    && (a.dialRace.Undecided? <==> a.dial.Pending? && !a.fired)
    && (a.dialRace.Won? ==> a.dial.Done?)
    && (a.dialRace.Lost? ==> a.fired || a.dial.Broken?)
    && (a.dialRace.Lost? && a.dial.Done? ==> a.tunnelOpen)
    && (a.tunnelOpen ==> a.dial.Done?)
    && (a.shake.Unborn? ==> a.shakeRace.Undecided?)
    && (!a.shake.Unborn? ==> a.secure && a.dialRace.Won?)
    && (!a.shake.Unborn? ==> (a.shakeRace.Undecided? <==> a.shake.Pending? && !a.fired))
    && (a.shakeRace.Won? ==> a.shake.Done?)
    && (a.sessionOpen ==> a.shake.Done?)
    && (a.disposed <==> a.owns && a.stage.Threw?)
    && match a.stage
       case Connecting => a.shake.Unborn? && (a.dialRace.Won? ==> a.tunnelOpen)
       case Shaking => !a.shake.Unborn? && a.tunnelOpen && (a.shake.Done? ==> a.sessionOpen)
       case Closing => !a.shake.Unborn? && !a.tunnelOpen && a.shakeRace.Lost? && (a.shake.Done? ==> a.sessionOpen)
       case Returned => a.dialRace.Won? && (a.secure ==> a.shakeRace.Won?)
       case Threw =>
         if a.shake.Unborn? then a.dialRace.Lost?
         else a.shakeRace.Lost? && !a.tunnelOpen && (a.shake.Done? ==> a.sessionOpen)
  }

  lemma StepKeeps(a: Attempt, action: Action)
    requires AttemptOk(a) && Enabled(a, action)
    ensures AttemptOk(Stepped(a, action))
  {
  }

  lemma {:induction false} RunKeeps(a: Attempt, actions: seq<Action>, end: Attempt)
    requires AttemptOk(a) && Run(a, actions, end)
    ensures AttemptOk(end) && end.secure == a.secure && end.owns == a.owns
    decreases |actions|
  {
    if actions != [] {
      StepKeeps(a, actions[0]);
      RunKeeps(Stepped(a, actions[0]), actions[1..], end);
    }
  }

  /** Something will close the tunnel: the call, which has it in hand or is about to, or its caller. */
  predicate Held(a: Attempt) {
    match a.stage
    case Connecting => a.dialRace.Won?
    case Shaking => true
    case Returned => true
    case _ => false
  }

  predicate Unowned(a: Attempt) {
    a.tunnelOpen && !Held(a)
  }

  // ---------------------------------------------------------------- tunnels left open

  /** In `actions`, the deadline having fired or not before them, the dial succeeds after it has. */
  predicate DialsLate(fired: bool, actions: seq<Action>)
    decreases |actions|
  {
    && actions != []
    && ((fired && actions[0] == DialDone(true)) || DialsLate(fired || actions[0].Fires?, actions[1..]))
  }

  lemma {:induction false} DialsOnce(a: Attempt, actions: seq<Action>, end: Attempt)
    requires Run(a, actions, end) && !a.dial.Pending? && !a.dial.Unborn?
    ensures !DialsLate(a.fired, actions) && end.dial == a.dial
    decreases |actions|
  {
    if actions != [] {
      DialsOnce(Stepped(a, actions[0]), actions[1..], end);
    }
  }

  lemma {:induction false} UnownedFrom(a: Attempt, actions: seq<Action>, end: Attempt)
    requires AttemptOk(a) && Run(a, actions, end)
    ensures Unowned(end) <==> Unowned(a) || DialsLate(a.fired, actions)
    decreases |actions|
  {
    if actions != [] {
      StepKeeps(a, actions[0]);
      UnownedFrom(Stepped(a, actions[0]), actions[1..], end);
      if actions[0] == DialDone(true) && a.fired {
        assert Unowned(Stepped(a, actions[0]));
      } else if Unowned(a) {
        assert Unowned(Stepped(a, actions[0]));
      }
    }
  }

  lemma {:induction false} LateMeans(fired: bool, actions: seq<Action>)
    ensures DialsLate(fired, actions) <==>
              exists i :: 0 <= i < |actions| && actions[i] == DialDone(true) && (fired || Fires in actions[..i])
    decreases |actions|
  {
    if actions != [] {
      var rest, late := actions[1..], fired || actions[0].Fires?;
      LateMeans(late, rest);
      if i :| 0 <= i < |rest| && rest[i] == DialDone(true) && (late || Fires in rest[..i]) {
        assert actions[i + 1] == rest[i] && actions[..i + 1] == [actions[0]] + rest[..i];
      }
      if i :| 0 <= i < |actions| && actions[i] == DialDone(true) && (fired || Fires in actions[..i]) {
        if i > 0 {
          assert rest[i - 1] == actions[i] && actions[..i] == [actions[0]] + rest[..i - 1];
        }
      }
    }
  }

  /** In every run, the tunnel is open with nobody to close it exactly when its dial succeeded after the
      deadline had fired; and then it stays so in every continuation. */
  lemma UnownedExactlyWhen(secure: bool, owns: bool, actions: seq<Action>, end: Attempt)
    requires Run(Began(secure, owns, false), actions, end)
    ensures Unowned(end) <==>
              exists i :: 0 <= i < |actions| && actions[i] == DialDone(true) && Fires in actions[..i]
    ensures Unowned(end) ==> forall more, later | Run(end, more, later) :: Unowned(later)
  {
    hide Run, DialsLate, Unowned, AttemptOk;
    assert AttemptOk(Began(secure, owns, false)) by {
      BeganOk(secure, owns, false);
    }
    UnownedFrom(Began(secure, owns, false), actions, end);
    LateMeans(false, actions);
    RunKeeps(Began(secure, owns, false), actions, end);
    assert !Unowned(Began(secure, owns, false)) by {
      BeganOk(secure, owns, false);
    }
    forall more, later | Run(end, more, later) && Unowned(end) ensures Unowned(later) {
      UnownedFrom(end, more, later);
    }
  }

  lemma BeganOk(secure: bool, owns: bool, aborted: bool)
    ensures AttemptOk(Began(secure, owns, aborted)) && !Unowned(Began(secure, owns, aborted))
  {
  }

  /** A deadline that has fired before the call begins leaves no tunnel behind: none is dialled. */
  lemma {:induction false} AbortedDialsNothing(secure: bool, owns: bool, actions: seq<Action>, end: Attempt)
    requires Run(Began(secure, owns, true), actions, end)
    ensures !end.tunnelOpen && !end.sessionOpen && !end.stage.Returned?
  {
    BeganOk(secure, owns, true);
    DialsOnce(Began(secure, owns, true), actions, end);
    RunKeeps(Began(secure, owns, true), actions, end);
  }

  /** The deadline fires, the call throws, the dial succeeds. */
  lemma LateTunnel(secure: bool, owns: bool) returns (actions: seq<Action>, end: Attempt)
    ensures Run(Began(secure, owns, false), actions, end) && end.stage.Threw? && Unowned(end)
  {
    var a := Began(secure, owns, false);
    var b := Stepped(Stepped(a, Fires), Resumes);
    end := Stepped(b, DialDone(true));
    actions := [Fires, Resumes, DialDone(true)];
    assert actions[1..] == [Resumes, DialDone(true)] && actions[1..][1..] == [DialDone(true)];
    assert actions[1..][1..][1..] == [];
    assert Run(end, [], end);
  }

  // ---------------------------------------------------------------- how the call ends

  /** x happens in `actions`, and the deadline has not fired before it. */
  predicate InTime(fired: bool, actions: seq<Action>, x: Action)
    decreases |actions|
  {
    && actions != [] && !fired
    && (actions[0] == x || InTime(actions[0].Fires?, actions[1..], x))
  }

  lemma {:induction false} WonFrom(a: Attempt, actions: seq<Action>, end: Attempt)
    requires AttemptOk(a) && Run(a, actions, end)
    ensures end.dialRace.Won? <==> a.dialRace.Won? || (a.dialRace.Undecided? && InTime(a.fired, actions, DialDone(true)))
    ensures end.shakeRace.Won? <==> a.shakeRace.Won? || (a.shakeRace.Undecided? && InTime(a.fired, actions, ShakeDone(true)))
    decreases |actions|
  {
    if actions != [] {
      StepKeeps(a, actions[0]);
      WonFrom(Stepped(a, actions[0]), actions[1..], end);
      if actions[0].DialDone? || actions[0].ShakeDone? {
        NotAgain(Stepped(a, actions[0]), actions[1..], end, a.fired);
      }
      OneStepInTime(a, actions);
    }
  }

  /** A promise settles once. */
  lemma {:induction false} NotAgain(a: Attempt, actions: seq<Action>, end: Attempt, fired: bool)
    requires AttemptOk(a) && Run(a, actions, end)
    ensures a.dial.Done? || a.dial.Broken? ==> !InTime(fired, actions, DialDone(true))
    ensures a.shake.Done? || a.shake.Broken? ==> !InTime(fired, actions, ShakeDone(true))
    decreases |actions|
  {
    if actions != [] {
      StepKeeps(a, actions[0]);
      NotAgain(Stepped(a, actions[0]), actions[1..], end, actions[0].Fires?);
    }
  }

  lemma OneStepInTime(a: Attempt, actions: seq<Action>)
    requires AttemptOk(a) && actions != [] && Enabled(a, actions[0])
    requires actions[0].DialDone? ==> !InTime(a.fired, actions[1..], DialDone(true))
    requires actions[0].ShakeDone? ==> !InTime(a.fired, actions[1..], ShakeDone(true))
    ensures
      var b, rest := Stepped(a, actions[0]), actions[1..];
      && ((b.dialRace.Won? || (b.dialRace.Undecided? && InTime(b.fired, rest, DialDone(true)))) <==>
            (a.dialRace.Won? || (a.dialRace.Undecided? && InTime(a.fired, actions, DialDone(true)))))
      && ((b.shakeRace.Won? || (b.shakeRace.Undecided? && InTime(b.fired, rest, ShakeDone(true)))) <==>
            (a.shakeRace.Won? || (a.shakeRace.Undecided? && InTime(a.fired, actions, ShakeDone(true)))))
  {
  }

  /** A call that has come to its end returned a connection exactly when the dial, and for https the
      handshake, succeeded before the deadline fired. */
  lemma ReturnsExactlyWhen(secure: bool, owns: bool, actions: seq<Action>, end: Attempt)
    requires Run(Began(secure, owns, false), actions, end) && (end.stage.Returned? || end.stage.Threw?)
    ensures end.stage.Returned? <==>
              InTime(false, actions, DialDone(true)) && (secure ==> InTime(false, actions, ShakeDone(true)))
  {
    var a := Began(secure, owns, false);
    BeganOk(secure, owns, false);
    WonFrom(a, actions, end);
    RunKeeps(a, actions, end);
    hide Run, InTime;
  }

  /** A handshake that succeeds in a call that has thrown did so too late: it leaves a session over a tunnel
      that has been closed under it.  In every run a deadline made here is disposed of exactly when the
      call has thrown, and a borrowed one never is. */
  lemma ThrowsClean(secure: bool, owns: bool, actions: seq<Action>, end: Attempt)
    requires Run(Began(secure, owns, false), actions, end)
    ensures end.stage.Threw? && ShakeDone(true) in actions ==>
              end.sessionOpen && !end.tunnelOpen && !InTime(false, actions, ShakeDone(true))
    ensures end.stage.Threw? && end.sessionOpen ==> !end.tunnelOpen
    ensures end.disposed <==> owns && end.stage.Threw?
  {
    var a := Began(secure, owns, false);
    BeganOk(secure, owns, false);
    RunKeeps(a, actions, end);
    WonFrom(a, actions, end);
    if ShakeDone(true) in actions {
      ShakesOnce(a, actions, end);
    }
    hide Run, InTime;
  }

  lemma {:induction false} ShakesOnce(a: Attempt, actions: seq<Action>, end: Attempt)
    requires AttemptOk(a) && Run(a, actions, end)
    requires a.shake.Done? || ShakeDone(true) in actions
    ensures end.shake.Done?
    decreases |actions|
  {
    if actions != [] {
      var b := Stepped(a, actions[0]);
      StepKeeps(a, actions[0]);
      assert actions == [actions[0]] + actions[1..];
      ShakesOnce(b, actions[1..], end);
    }
  }

  /** A tunnel that the caller has closed stays closed. */
  lemma {:induction false} ClosedStaysShut(a: Attempt, sessionThrows: bool, more: seq<Action>, later: Attempt)
    requires AttemptOk(a) && Enabled(a, Closes(sessionThrows)) && Run(Stepped(a, Closes(sessionThrows)), more, later)
    ensures !later.tunnelOpen && later.stage.Returned?
  {
    ShutStays(Stepped(a, Closes(sessionThrows)), more, later);
  }

  lemma {:induction false} ShutStays(a: Attempt, more: seq<Action>, later: Attempt)
    requires a.dial.Done? && a.stage.Returned? && !a.tunnelOpen && Run(a, more, later)
    ensures !later.tunnelOpen && later.stage.Returned?
    decreases |more|
  {
    if more != [] {
      ShutStays(Stepped(a, more[0]), more[1..], later);
    }
  }

  // ---------------------------------------------------------------- the call itself

  datatype Reason = Scheme | BadProxy | Contradiction

  /** Default ports; a port of 0 counts as none. */
  function TargetPort(protocol: string, port: Option<nat>): Result<nat, Reason> {
    var chosen := match port
      case Some(p) => p
      case None => if protocol == "http:" then 80 else if protocol == "https:" then 443 else 0;
    if chosen == 0 then Err(Scheme) else Ok(chosen)
  }

  /** A URL is refused for its scheme exactly when the scheme is neither http nor https and no port (or
      port 0) is written, or when port 0 is written; any other scheme gets by with an explicit port. */
  lemma RefusedExactlyWhen(protocol: string, port: Option<nat>)
    ensures TargetPort(protocol, port).Err? <==>
              port == Some(0) || (port == None && protocol !in ["http:", "https:"])
    ensures TargetPort("ftp:", Some(2121)) == Ok(2121)
  {
  }

  /** The port is the one written, and 80 or 443 by the scheme where none is. */
  lemma PortIs(protocol: string, port: Option<nat>)
    requires TargetPort(protocol, port).Ok?
    ensures TargetPort(protocol, port).value ==
            if port.Some? then port.value else if protocol == "http:" then 80 else 443
  {
  }

  class Duplex {
    var open: bool

    constructor ()
      ensures open
    {
      open := true;
    }
  }

  class Deadline {
    var fired: bool
    var disposed: bool

    constructor (aborted: bool)
      ensures fired == aborted && !disposed
    {
      fired, disposed := aborted, false;
    }
  }

  class Connection {
    const tunnel: Duplex
    const session: Duplex?
    const deadline: Deadline
    const ownsDeadline: bool

    constructor (tunnel: Duplex, session: Duplex?, deadline: Deadline, ownsDeadline: bool)
      ensures this.tunnel == tunnel && this.session == session
      ensures this.deadline == deadline && this.ownsDeadline == ownsDeadline
    {
      this.tunnel, this.session, this.deadline, this.ownsDeadline := tunnel, session, deadline, ownsDeadline;
    }

    /** Closing reaches the tunnel even when closing the session fails. */
    method Close(sessionThrows: bool) returns (threw: bool)
      requires session != tunnel
      modifies tunnel, session
      ensures !tunnel.open
      ensures session != null ==> session.open == (old(session.open) && sessionThrows)
      ensures threw <==> session != null && sessionThrows
    {
      threw := false;
      if session != null {
        if sessionThrows {
          threw := true;
        } else {
          session.open := false;
        }
      }
      tunnel.open := false;
    }
  }

  /** Everything the caller passes; `aborted` is its own signal, which a deadline made here looks at. */
  datatype Request = Request(
    protocol: string, port: Option<nat>, proxyParses: bool,
    omitsStatusRequest: bool, requireStaple: bool, aborted: bool)

  /** What the call holds on its stack, and what its promises have come to. */
  class Opener {
    const secure: bool
    const deadline: Deadline
    const owns: bool
    var stage: Stage
    var tunnel: Duplex?
    var session: Duplex?

    ghost predicate Shows(a: Attempt)
      reads this, deadline, tunnel, session
    {
      && a.secure == secure && a.owns == owns && a.stage == stage
      && a.fired == deadline.fired && a.disposed == (owns && deadline.disposed)
      && (a.dial.Done? <==> tunnel != null) && (tunnel != null ==> tunnel.open == a.tunnelOpen)
      && (a.shake.Done? <==> session != null) && (session != null ==> session.open == a.sessionOpen)
      && (tunnel != null ==> tunnel != session)
    }

    /** The call begins to dial. */
    constructor (secure: bool, deadline: Deadline, owns: bool)
      requires owns ==> !deadline.disposed
      ensures this.deadline == deadline && Shows(Began(secure, owns, deadline.fired))
    {
      this.secure, this.deadline, this.owns := secure, deadline, owns;
      stage, tunnel, session := Connecting, null, null;
    }

    method OnDial(ok: bool, ghost a: Attempt)
      requires AttemptOk(a) && Shows(a) && Enabled(a, DialDone(ok))
      modifies this`tunnel
      ensures Shows(Stepped(a, DialDone(ok)))
    {
      if ok {
        tunnel := new Duplex();
      }
    }

    method OnHandshake(ok: bool, ghost a: Attempt)
      requires AttemptOk(a) && Shows(a) && Enabled(a, ShakeDone(ok))
      modifies this`session
      ensures Shows(Stepped(a, ShakeDone(ok)))
    {
      if ok {
        session := new Duplex();
      }
    }

    /** The call goes on: `won` is how the race it awaited came out. */
    method Resume(won: bool, ghost a: Attempt) returns (connection: Connection?)
      requires AttemptOk(a) && Shows(a) && Enabled(a, Resumes)
      requires won <==> if stage.Connecting? then a.dialRace.Won? else stage.Shaking? && a.shakeRace.Won?
      modifies `stage, tunnel, deadline
      ensures Shows(Stepped(a, Resumes))
      ensures connection != null <==> stage.Returned?
      ensures connection != null ==>
                && fresh(connection) && connection.tunnel == tunnel && connection.tunnel.open
                && connection.session == session && (session != null <==> secure)
                && connection.deadline == deadline && connection.ownsDeadline == owns
      ensures !(owns && stage.Threw?) ==> deadline.disposed == old(deadline.disposed)
      ensures deadline.fired == old(deadline.fired)
    {
      connection := null;
      match stage
      case Connecting =>
        if !won {
          Fail();
        } else if secure {
          stage := Shaking;
        } else {
          stage := Returned;
          connection := new Connection(tunnel, null, deadline, owns);
        }
      case Shaking =>
        if won {
          stage := Returned;
          connection := new Connection(tunnel, session, deadline, owns);
        } else {
          stage := Closing;
          tunnel.open := false;
        }
      case Closing => Fail();
    }

    /** The outer handler. */
    method Fail()
      modifies `stage, deadline
      ensures stage == Threw && deadline.fired == old(deadline.fired)
      ensures deadline.disposed == (old(deadline.disposed) || owns)
    {
      stage := Threw;
      if owns {
        deadline.disposed := true;
      }
    }
  }

  /** The call up to its first await: it is refused with no deadline made and nothing dialled, or begins to
      dial under the deadline it was lent or one of its own. */
  method Open(q: Request, borrowed: Deadline?) returns (r: Result<Opener, Reason>)
    ensures r.Err? <==>
              || q.port == Some(0) || (q.port == None && q.protocol !in ["http:", "https:"])
              || !q.proxyParses || (q.omitsStatusRequest && q.requireStaple)
    ensures r.Err? ==>
              r.error == if q.port == Some(0) || (q.port == None && q.protocol !in ["http:", "https:"]) then Scheme
                         else if !q.proxyParses then BadProxy else Contradiction
    ensures r.Ok? ==>
              && fresh(r.value)
              && (borrowed != null ==> r.value.deadline == borrowed)
              && (borrowed == null ==> fresh(r.value.deadline) && r.value.deadline.fired == q.aborted)
              && r.value.Shows(Began(q.protocol == "https:", borrowed == null, r.value.deadline.fired))
  {
    RefusedExactlyWhen(q.protocol, q.port);
    if TargetPort(q.protocol, q.port).Err? { return Err(Scheme); }
    if !q.proxyParses { return Err(BadProxy); }
    if q.omitsStatusRequest && q.requireStaple { return Err(Contradiction); }
    var deadline := borrowed;
    if deadline == null {
      deadline := new Deadline(q.aborted);
    }
    var opener := new Opener(q.protocol == "https:", deadline, borrowed == null);
    r := Ok(opener);
  }
}
