/** `install` of src/client.js and the undo it returns, in every order they can be called. */
module Installing {
  /** A function that may stand in globalThis.fetch: one that was there before, one that some other
      party put there, or the one made by the n-th install. */
  datatype Fetch = Original | Foreign(id: nat) | Replacement(n: nat)

  /** What one install keeps for its undo.  `effective` says that its undo took effect. */
  datatype Record = Record(previous: Fetch, undone: bool, effective: bool)

  datatype State = State(current: Fetch, made: seq<Record>)

  datatype Act = Installs | Uninstalls(n: nat) | Assigns(fetch: Fetch)

  /** An undo exists once its install was made; another party can assign any function it could have. */
  predicate Can(s: State, a: Act) {
    match a
    case Installs => true
    case Uninstalls(n) => n < |s.made|
    case Assigns(f) => f.Replacement? ==> f.n < |s.made|
  }

  function Do(s: State, a: Act): State
    requires Can(s, a)
  {
    match a
    case Installs => State(Replacement(|s.made|), s.made + [Record(s.current, false, false)])
    case Uninstalls(n) =>
      if s.made[n].undone then s
      else if s.current == Replacement(n)
      then State(s.made[n].previous, s.made[n := s.made[n].(undone := true, effective := true)])
      else s.(made := s.made[n := s.made[n].(undone := true)])
    case Assigns(f) => s.(current := f)
  }

  ghost predicate Run(s: State, acts: seq<Act>, end: State)
    decreases |acts|
  {
    if acts == [] then s == end else Can(s, acts[0]) && Run(Do(s, acts[0]), acts[1..], end)
  }

  const START := State(Original, [])

  // ---------------------------------------------------------------- no undo clobbers

  /** In any state, reached by whatever calls and assignments, an undo either leaves the global alone or
      takes its own replacement away and puts back what its install had found; and a second call of the
      same undo does nothing. */
  lemma UndoIsPolite(s: State, n: nat)
    requires n < |s.made|
    ensures
      var s' := Do(s, Uninstalls(n));
      && (s'.current != s.current ==> s.current == Replacement(n) && s'.current == s.made[n].previous)
      && s'.made[n].undone && Do(s', Uninstalls(n)) == s'
      && (forall k | 0 <= k < |s.made| :: s'.made[k].previous == s.made[k].previous)
  {
  }

  /** Whatever undos are called, in whatever order and however often, the function in the global stays
      there unless it is the replacement of one of them: another party's is never clobbered. */
  lemma {:induction false} NobodyIsClobbered(s: State, acts: seq<Act>, end: State)
    requires Run(s, acts, end) && forall a <- acts :: a.Uninstalls?
    requires s.current.Replacement? ==> Uninstalls(s.current.n) !in acts
    ensures end.current == s.current
    decreases |acts|
  {
    if acts != [] {
      assert acts[0] in acts;
      UndoIsPolite(s, acts[0].n);
      NobodyIsClobbered(Do(s, acts[0]), acts[1..], end);
    }
  }

  /** An undo that was called once does nothing when it is called again, whatever was installed, undone and
      assigned in between. */
  lemma {:induction false} SecondUndoIsNothing(s: State, acts: seq<Act>, end: State, n: nat)
    requires n < |s.made| && Run(Do(s, Uninstalls(n)), acts, end)
    ensures n < |end.made| && Do(end, Uninstalls(n)) == end
  {
    UndoIsPolite(s, n);
    UndoneStays(Do(s, Uninstalls(n)), acts, end, n);
  }

  lemma {:induction false} UndoneStays(s: State, acts: seq<Act>, end: State, n: nat)
    requires n < |s.made| && s.made[n].undone && Run(s, acts, end)
    ensures n < |end.made| && end.made[n].undone
    decreases |acts|
  {
    if acts != [] {
      UndoneStays(Do(s, acts[0]), acts[1..], end, n);
    }
  }

  // ---------------------------------------------------------------- when the global is restored

  /** The previous function of an install is older than its replacement. */
  ghost predicate Rooted(made: seq<Record>) {
    forall k | 0 <= k < |made| ::
      made[k].previous.Original? || (made[k].previous.Replacement? && made[k].previous.n < k)
  }

  predicate InMade(f: Fetch, size: nat) {
    f.Original? || (f.Replacement? && f.n < size)
  }

  /** How many installs lie under a function. */
  ghost function Depth(f: Fetch, made: seq<Record>): nat
    requires Rooted(made) && InMade(f, |made|)
    decreases if f.Replacement? then f.n + 1 else 0
  {
    if f.Original? then 0 else 1 + Depth(made[f.n].previous, made)
  }

  function Effective(made: seq<Record>): nat {
    if made == [] then 0
    else Effective(made[..|made| - 1]) + (if made[|made| - 1].effective then 1 else 0)
  }

  lemma {:induction false} DepthSame(f: Fetch, made: seq<Record>, made': seq<Record>)
    requires Rooted(made) && InMade(f, |made|) && |made| <= |made'|
    requires forall k | 0 <= k < |made| :: made'[k].previous == made[k].previous
    requires Rooted(made')
    ensures Depth(f, made') == Depth(f, made)
    decreases if f.Replacement? then f.n + 1 else 0
  {
    if f.Replacement? {
      DepthSame(made[f.n].previous, made, made');
    }
  }

  lemma {:induction false} EffectiveAt(made: seq<Record>, n: nat, i: Record)
    requires n < |made| && !made[n].effective
    ensures Effective(made[n := i]) == Effective(made) + if i.effective then 1 else 0
  {
    var made' := made[n := i];
    if n == |made| - 1 {
      assert made'[..n] == made[..n];
    } else {
      EffectiveAt(made[..|made| - 1], n, i);
      assert made'[..|made| - 1] == made[..|made| - 1][n := i];
    }
  }

  lemma {:induction false} EffectiveAll(made: seq<Record>)
    ensures Effective(made) <= |made|
    ensures Effective(made) == |made| <==> forall k | 0 <= k < |made| :: made[k].effective
  {
    if made != [] {
      EffectiveAll(made[..|made| - 1]);
      assert made == made[..|made| - 1] + [made[|made| - 1]];
    }
  }

  /** Installs that are not effectively undone are exactly those under the current function. */
  ghost predicate Balanced(s: State) {
    && Rooted(s.made) && InMade(s.current, |s.made|)
    && Depth(s.current, s.made) + Effective(s.made) == |s.made|
    && forall k | 0 <= k < |s.made| :: s.made[k].effective ==> s.made[k].undone
  }

  lemma DoBalances(s: State, a: Act)
    requires Balanced(s) && Can(s, a) && !a.Assigns?
    ensures Balanced(Do(s, a))
  {
    var s' := Do(s, a);
    match a
    case Installs =>
      assert s'.made[..|s.made|] == s.made;
      DepthSame(s.current, s.made, s'.made);
    case Uninstalls(n) =>
      if !s.made[n].undone {
        EffectiveAt(s.made, n, s'.made[n]);
        DepthSame(s.current, s.made, s'.made);
        if s.current == Replacement(n) {
          DepthSame(s.made[n].previous, s.made, s'.made);
        }
      }
  }

  lemma {:induction false} RunBalances(s: State, acts: seq<Act>, end: State)
    requires Balanced(s) && Run(s, acts, end) && forall a <- acts :: !a.Assigns?
    ensures Balanced(end)
    decreases |acts|
  {
    if acts != [] {
      DoBalances(s, acts[0]);
      hide Balanced;
      RunBalances(Do(s, acts[0]), acts[1..], end);
    }
  }

  /** While nobody else assigns the global, it ends as it began exactly when every install was undone at
      a moment when its own replacement was current. */
  lemma RestoredExactlyWhen(acts: seq<Act>, end: State)
    requires Run(START, acts, end) && forall a <- acts :: !a.Assigns?
    ensures end.current == Original <==> forall k | 0 <= k < |end.made| :: end.made[k].effective
  {
    RunBalances(START, acts, end);
    EffectiveAll(end.made);
  }

  // ---------------------------------------------------------------- proper nesting

  /** The calls are properly nested over the installs of `stack`, innermost last: an undo is that of the
      innermost install still open, or repeats one that was called before; all are closed at the end. */
  predicate Nested(acts: seq<Act>, size: nat, stack: seq<nat>)
    decreases |acts|
  {
    if acts == [] then stack == []
    else
      match acts[0]
      case Installs => Nested(acts[1..], size + 1, stack + [size])
      case Uninstalls(n) =>
        if stack != [] && n == stack[|stack| - 1] then Nested(acts[1..], size, stack[..|stack| - 1])
        else n < size && n !in stack && Nested(acts[1..], size, stack)
      case Assigns(_) => false
  }

  /** The open installs lie on each other, the innermost under f. */
  ghost predicate Linked(f: Fetch, made: seq<Record>, stack: seq<nat>)
    decreases |stack|
  {
    if stack == [] then f == Original
    else
      var n, rest := stack[|stack| - 1], stack[..|stack| - 1];
      f == Replacement(n) && n < |made| && !made[n].undone && n !in rest && Linked(made[n].previous, made, rest)
  }

  ghost predicate OthersUndone(made: seq<Record>, stack: seq<nat>) {
    forall n | 0 <= n < |made| && n !in stack :: made[n].undone
  }

  ghost predicate Stacked(s: State, stack: seq<nat>) {
    Linked(s.current, s.made, stack) && OthersUndone(s.made, stack)
  }

  lemma {:induction false} NestedRestores(s: State, acts: seq<Act>, stack: seq<nat>, end: State)
    requires Stacked(s, stack) && Nested(acts, |s.made|, stack) && Run(s, acts, end)
    ensures end.current == Original
    decreases |acts|
  {
    if acts != [] {
      var a := acts[0];
      if a.Installs? {
        StackPush(s, stack);
        hide Stacked;
        NestedRestores(Do(s, a), acts[1..], stack + [|s.made|], end);
      } else if stack != [] && a.n == stack[|stack| - 1] {
        StackPop(s, stack);
        hide Stacked;
        NestedRestores(Do(s, a), acts[1..], stack[..|stack| - 1], end);
      } else {
        StackSkip(s, stack, a.n);
        hide Stacked;
        NestedRestores(s, acts[1..], stack, end);
      }
    }
  }

  lemma {:induction false} LinkedSame(f: Fetch, made: seq<Record>, made': seq<Record>, stack: seq<nat>)
    requires Linked(f, made, stack) && |made| <= |made'|
    requires forall k | 0 <= k < |made| && k in stack :: made'[k] == made[k]
    ensures Linked(f, made', stack) && forall n <- stack :: n < |made|
    decreases |stack|
  {
    if stack != [] {
      var n, rest := stack[|stack| - 1], stack[..|stack| - 1];
      assert stack == rest + [n];
      LinkedSame(made[n].previous, made, made', rest);
    }
  }

  lemma StackPush(s: State, stack: seq<nat>)
    requires Stacked(s, stack)
    ensures Stacked(Do(s, Installs), stack + [|s.made|])
  {
    LinkedSame(s.current, s.made, Do(s, Installs).made, stack);
    assert (stack + [|s.made|])[..|stack|] == stack;
  }

  lemma StackPop(s: State, stack: seq<nat>)
    requires Stacked(s, stack) && stack != []
    ensures stack[|stack| - 1] < |s.made|
    ensures Stacked(Do(s, Uninstalls(stack[|stack| - 1])), stack[..|stack| - 1])
  {
    var n, rest := stack[|stack| - 1], stack[..|stack| - 1];
    assert stack == rest + [n];
    LinkedSame(s.made[n].previous, s.made, Do(s, Uninstalls(n)).made, rest);
  }

  /** An undo called before changes nothing. */
  lemma StackSkip(s: State, stack: seq<nat>, n: nat)
    requires Stacked(s, stack) && n < |s.made| && n !in stack
    ensures Do(s, Uninstalls(n)) == s
  {
  }

  /** Every properly nested sequence of installs and undos, repeated undos included, leaves the global
      as it was. */
  lemma NestingRestores(acts: seq<Act>, end: State)
    requires Run(START, acts, end) && Nested(acts, 0, [])
    ensures end.current == Original
  {
    NestedRestores(START, acts, [], end);
  }

  /** Undone in the order they were made, two installs leave the first one's replacement behind. */
  lemma OutOfOrderStays() returns (end: State)
    ensures Run(START, [Installs, Installs, Uninstalls(0), Uninstalls(1)], end)
    ensures end.current == Replacement(0)
  {
    var s1 := Do(START, Installs);
    var s2 := Do(s1, Installs);
    var s3 := Do(s2, Uninstalls(0));
    end := Do(s3, Uninstalls(1));
    var acts := [Installs, Installs, Uninstalls(0), Uninstalls(1)];
    assert acts[1..] == [Installs, Uninstalls(0), Uninstalls(1)];
    assert acts[1..][1..] == [Uninstalls(0), Uninstalls(1)];
    assert acts[1..][1..][1..] == [Uninstalls(1)] && acts[1..][1..][1..][1..] == [];
    assert Run(end, [], end) && Run(s3, [Uninstalls(1)], end) && Run(s2, [Uninstalls(0), Uninstalls(1)], end);
    assert Run(s1, [Installs, Uninstalls(0), Uninstalls(1)], end);
  }

  // ---------------------------------------------------------------- the global, updated in place

  class Global {
    var current: Fetch
    var made: seq<Record>

    function Now(): State
      reads this
    {
      State(current, made)
    }

    constructor ()
      ensures Now() == START
    {
      current, made := Original, [];
    }

    method Install() returns (undo: nat)
      modifies this
      ensures undo == |old(made)| && Now() == Do(old(Now()), Installs)
    {
      undo := |made|;
      var previous := current;
      current := Replacement(undo);
      made := made + [Record(previous, false, false)];
    }

    method Uninstall(undo: nat)
      requires undo < |made|
      modifies this
      ensures Now() == Do(old(Now()), Uninstalls(undo))
    {
      var mine := made[undo];
      if mine.undone {
        return;
      }
      made := made[undo := mine.(undone := true)];
      if current == Replacement(undo) {
        current := mine.previous;
        made := made[undo := mine.(undone := true, effective := true)];
      }
    }
  }
}
