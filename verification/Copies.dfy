/** How often a request is written and processed. */
module Copies {
  import opened Protocol
  import opened Safety
  import opened Steps

  /** A hop writes its request at most three times (shared HTTP/2, pooled, fresh); every copy but the
      last ended in what was taken as proof that it was not processed.  Servers have processed exactly
      the copies for which that proof was wrong, and the last one or not; so the request was processed
      at most once exactly when no proof was wrong, or one was and the last copy is unprocessed. */
  lemma AtMostOnce(w: World, e: ExId)
    requires Reachable(w) && e in w.exs
    ensures w.exs[e].writes <= 3
    ensures w.exs[e].writes <= w.exs[e].proofs + 1
    ensures w.exs[e].processed == w.exs[e].slips + if w.exs[e].live then 1 else 0
    ensures w.exs[e].processed <= 1 <==> w.exs[e].slips == 0 || (w.exs[e].slips == 1 && !w.exs[e].live)
    ensures w.exs[e].slips <= w.exs[e].proofs <= 2
  {
    hide Inv, Reachable;
    ReachableInv(w);
    View(w, e);
  }

  /** The copies written for these exchanges, in all. */
  function WritesOf(w: World, hops: seq<ExId>): nat {
    if hops == [] then 0
    else (if hops[0] in w.exs then w.exs[hops[0]].writes else 0) + WritesOf(w, hops[1..])
  }

  lemma {:induction false} WritesPerHop(w: World, hops: seq<ExId>)
    requires Inv(w)
    ensures WritesOf(w, hops) <= 3 * |hops|
  {
    hide Inv;
    if hops != [] {
      if hops[0] in w.exs {
        View(w, hops[0]);
      }
      WritesPerHop(w, hops[1..]);
    }
  }

  /** When the re-send of src/client.js:697 is wrong: exactly when the server had looked at the
      request, that is when it then hung up without a byte, or tore its response where the failure
      still reports `got: 0`. */
  lemma ResendSlips(w: World, e: ExId)
    requires Reachable(w) && CanStep(w, e, NeverSaw)
    ensures
      var conn, w' := w.conns[w.exs[e].phase.conn], Stepped(w, e, NeverSaw);
      && (w'.exs[e].slips == w.exs[e].slips + 1 <==> conn.answer == Working(e))
      && (conn.answer != Working(e) ==> conn.queue == [e] && conn.wire == [] && w'.exs[e].slips == w.exs[e].slips)
      && (conn.wire != [] ==> conn.answer == Working(e) && conn.wire == [Torn(e, true)])
  {
    hide Inv, Reachable;
    ReachableInv(w);
    HeldConn(w, e);
    var conn := w.conns[w.exs[e].phase.conn];
    assert WireOk(w, conn);
    hide ConnOk;
    if conn.wire != [] {
      assert conn.wire == [conn.wire[0]];
    }
  }

  /** Nothing else re-sends: a refused HTTP/2 stream is the one other proof. */
  lemma OnlyProofsResend(w: World, a: Action, e: ExId)
    requires Enabled(w, a) && e in w.exs
    ensures e in Next(w, a).exs
    ensures Next(w, a).exs[e].proofs != w.exs[e].proofs ==>
      a == By(e, NeverSaw) || (a.By? && a.e == e && a.step.H2Refused?)
  {
    NextCounts(w, a);
    hide Next;
  }

  /** One action as every exchange sees it. */
  lemma NextCounts(w: World, a: Action)
    requires Enabled(w, a)
    ensures
      var w' := Next(w, a);
      && (a.By? ==> LeavesOthers(w, w', a.e) && Counts(w, w', a.e, a.step))
      && (!a.By? ==>
            && w'.exs.Keys == w.exs.Keys
            && (forall e <- w.exs :: w'.exs[e] == w.exs[e] || w'.exs[e] == Processed(w.exs[e])))
  {
    if a.By? {
      StepLeaves(w, a.e, a.step);
      StepCounts(w, a.e, a.step);
      hide Stepped, Counts, LeavesOthers;
    } else {
      PeerLeaves(w, a);
      hide Next;
    }
  }

  /** A proof is drawn that is wrong: the server had processed the copy. */
  ghost predicate WrongProof(w: World, a: Action, e: ExId) {
    && a.By? && a.e == e && CanStep(w, e, a.step) && (a.step.NeverSaw? || a.step.H2Refused?)
    && w.exs[e].live
  }

  ghost function SlipsOf(w: World, e: ExId): nat {
    if e in w.exs then w.exs[e].slips else 0
  }

  lemma NextSlips(w: World, a: Action, e: ExId)
    requires Enabled(w, a)
    ensures SlipsOf(Next(w, a), e) == SlipsOf(w, e) + if WrongProof(w, a, e) then 1 else 0
  {
    NextCounts(w, a);
    hide Next;
  }

  /** How many wrong proofs are drawn about e's request in a run from w. */
  ghost function WrongProofs(w: World, actions: seq<Action>, e: ExId): nat
    decreases |actions|
  {
    if actions == [] || !Enabled(w, actions[0]) then 0
    else (if WrongProof(w, actions[0], e) then 1 else 0) + WrongProofs(Next(w, actions[0]), actions[1..], e)
  }

  lemma {:induction false} SlipsCounted(w: World, actions: seq<Action>, end: World, e: ExId)
    requires Run(w, actions, end)
    ensures SlipsOf(end, e) == SlipsOf(w, e) + WrongProofs(w, actions, e)
    decreases |actions|
  {
    if actions != [] {
      hide WrongProof, Next;
      NextSlips(w, actions[0], e);
      SlipsCounted(Next(w, actions[0]), actions[1..], end, e);
    }
  }

  /** In every run, a request is processed at most once exactly when no proof drawn about it was wrong,
      or one was and the copy sent after it has not been processed. */
  lemma OnceExactlyWhen(start: World, actions: seq<Action>, end: World, e: ExId)
    requires Untouched(start) && Run(start, actions, end) && e in end.exs
    ensures end.exs[e].processed <= 1 <==>
              || WrongProofs(start, actions, e) == 0
              || (WrongProofs(start, actions, e) == 1 && !end.exs[e].live)
  {
    hide Run, WrongProofs;
    SlipsCounted(start, actions, end, e);
    assert Reachable(end);
    hide Reachable, Untouched;
    AtMostOnce(end, e);
  }
}
