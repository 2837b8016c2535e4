/** The digest memo of src/pool.js against a caller who keeps writing to its own objects. */
module Memo {
  import opened Config
  import AD = AnchorDigest
  import PK = PoolKey

  /** `known` are the objects the caller can name; `ids` numbers callbacks. */
  datatype State = State(mem: Mem, known: set<Ref>, memo: map<Ref, string>, ids: PK.Ids)

  /** What anchorDigest makes of one item of an anchor list. */
  function AnchorAt(m: Mem, v: Value): AD.Anchor {
    match v
    case Str(units) => AD.Pem(units)
    case Atom(_) => AD.Der([])
    case Ptr(r) =>
      if r >= |m| then AD.Der([])
      else
        match m[r]
        case View(_, _, _) => AD.Der(Slice(m, m[r]))
        case Buffer(bytes) => AD.Der(seq(|bytes|, _ => 0))
        case _ => AD.Der([])
  }

  /** An anchor that is a view stands for the bytes in view, a bare buffer for as many zeros as it has
      bytes, and a text for its code units. */
  lemma AnchorLooks(m: Mem, v: Value)
    requires Closed(m) && ValueOk(v, |m|)
    ensures v.Str? ==> AnchorAt(m, v) == AD.Pem(v.units)
    ensures v.Ptr? && m[v.ref].View? ==>
              && m[v.ref].buffer < |m| && m[m[v.ref].buffer].Buffer? && AnchorAt(m, v).Der?
              && |AnchorAt(m, v).bytes| == m[v.ref].length
              && forall i | 0 <= i < m[v.ref].length ::
                   m[v.ref].offset + i < |m[m[v.ref].buffer].bytes|
                   && AnchorAt(m, v).bytes[i] == m[m[v.ref].buffer].bytes[m[v.ref].offset + i]
    ensures v.Ptr? && m[v.ref].Buffer? ==>
              && AnchorAt(m, v).Der? && |AnchorAt(m, v).bytes| == |m[v.ref].bytes|
              && forall i | 0 <= i < |m[v.ref].bytes| :: AnchorAt(m, v).bytes[i] == 0
  {
    if v.Ptr? {
      assert CellOk(m[v.ref], m);
    }
  }

  function AnchorsAt(m: Mem, items: seq<Value>): (r: seq<AD.Anchor>)
    ensures |r| == |items| && forall k | 0 <= k < |r| :: r[k] == AnchorAt(m, items[k])
  {
    seq(|items|, k requires 0 <= k < |items| => AnchorAt(m, items[k]))
  }

  predicate IsList(m: Mem, list: Ref) {
    list < |m| && m[list].Node? && m[list].kind.Array?
  }

  /** The digest computed afresh. */
  function Recomputed(m: Mem, list: Ref): string
    requires IsList(m, list)
  {
    AD.Hex(AD.Digest(AnchorsAt(m, m[list].items)))
  }

  /** What can happen: the caller writes to an object or makes one; a Client, this one or another, asks
      for the digest of a list or the number of a callback, or takes its copy of a configuration. */
  datatype Act =
    | Writes(ref: Ref, cell: Cell)
    | Makes(cell: Cell)
    | Asks(list: Ref)
    | Numbers(verify: PK.Callback)
    | Copies(config: Value)

  predicate ItemsIn(items: seq<Value>, refs: set<Ref>) {
    forall k | 0 <= k < |items| :: items[k].Ptr? ==> items[k].ref in refs
  }

  predicate Mentions(c: Cell, refs: set<Ref>) {
    match c
    case View(b, _, _) => b in refs
    case Node(_, items) => ItemsIn(items, refs)
    case Instance(_, items) => ItemsIn(items, refs)
    case _ => true
  }

  /** An object keeps its nature: an array buffer its length, a view the bytes it is over. */
  predicate SameNature(c: Cell, d: Cell) {
    match c
    case Buffer(bytes) => d.Buffer? && |d.bytes| == |bytes|
    case View(_, _, _) => d == c
    case Node(_, _) => d.Node?
    case Function => d.Function?
    case Instance(_, _) => d.Instance?
  }

  predicate Can(s: State, a: Act) {
    match a
    case Writes(r, c) => r in s.known && r < |s.mem| && Mentions(c, s.known) && SameNature(s.mem[r], c)
    case Makes(c) => Mentions(c, s.known)
    case Asks(list) => IsList(s.mem, list)
    case Numbers(_) => true
    case Copies(_) => true
  }

  function Do(s: State, a: Act): State
    requires Can(s, a)
  {
    match a
    case Writes(r, c) => s.(mem := s.mem[r := c])
    case Makes(c) => s.(mem := s.mem + [c], known := s.known + {|s.mem|})
    case Asks(list) =>
      if list in s.memo then s else s.(memo := s.memo[list := Recomputed(s.mem, list)])
    case Numbers(verify) => s.(ids := PK.Assign(s.ids, verify))
    case Copies(v) =>
      match Copy(s.mem, v, 0)
      case TooDeep => s
      case Copied(_, mem) => s.(mem := mem)
  }

  ghost predicate Run(s: State, acts: seq<Act>, end: State)
    decreases |acts|
  {
    if acts == [] then s == end else Can(s, acts[0]) && Run(Do(s, acts[0]), acts[1..], end)
  }

  // ---------------------------------------------------------------- the sealed part stays put

  /** The part of the heap between `low` and `high` is as it was in m, the caller cannot name it, and
      what it shares with the rest is still of the same nature. */
  ghost predicate Kept(s: State, m: Mem, low: nat) {
    && low <= |m| <= |s.mem|
    && (forall r | low <= r < |m| :: s.mem[r] == m[r] && r !in s.known)
    && (forall r | 0 <= r < low :: SameNature(m[r], s.mem[r]))
  }

  /** The memo has nothing but true digests for the lists of that part. */
  ghost predicate MemoTrue(s: State, m: Mem, low: nat) {
    forall list | list in s.memo && low <= list < |m| :: IsList(m, list) && s.memo[list] == Recomputed(m, list)
  }

  lemma {:induction false} CopyExtends(m: Mem, v: Value, depth: nat)
    requires depth <= 9 && Copy(m, v, depth).Copied?
    ensures m <= Copy(m, v, depth).mem
    decreases 9 - depth, 0, 0
  {
    if v.Ptr? && v.ref < |m| && m[v.ref].Node? {
      CopyAllExtends(m, m[v.ref].items, depth + 1);
    }
  }

  lemma {:induction false} CopyAllExtends(m: Mem, vs: seq<Value>, depth: nat)
    requires depth <= 9 && CopyAll(m, vs, depth).CopiedAll?
    ensures m <= CopyAll(m, vs, depth).mem
    decreases 9 - depth, 1, |vs|
  {
    if vs != [] {
      CopyExtends(m, vs[0], depth);
      CopyAllExtends(Copy(m, vs[0], depth).mem, vs[1..], depth);
    }
  }

  lemma SlicesKept(s: State, m: Mem, low: nat, r: Ref)
    requires Kept(s, m, low) && Sealed(m, low) && Closed(m) && low <= r < |m| && m[r].View?
    ensures Slice(s.mem, s.mem[r]) == Slice(m, m[r])
  {
    assert CellPrivate(m[r], low, m) && CellOk(m[r], m);
  }

  lemma AnchorsKept(s: State, m: Mem, low: nat, list: Ref)
    requires Kept(s, m, low) && Sealed(m, low) && Closed(m) && low <= list < |m| && IsList(m, list)
    ensures s.mem[list] == m[list] && AnchorsAt(s.mem, m[list].items) == AnchorsAt(m, m[list].items)
  {
    var items := m[list].items;
    assert CellPrivate(m[list], low, m) && CellOk(m[list], m);
    forall k | 0 <= k < |items| ensures AnchorAt(s.mem, items[k]) == AnchorAt(m, items[k]) {
      var v := items[k];
      assert Private(v, low, m) && ValueOk(v, |m|);
      if v.Ptr? && v.ref >= low && m[v.ref].View? {
        SlicesKept(s, m, low, v.ref);
      }
    }
  }

  lemma RecomputedKept(s: State, m: Mem, low: nat, list: Ref)
    requires Kept(s, m, low) && Sealed(m, low) && Closed(m) && low <= list < |m|
    ensures IsList(s.mem, list) <==> IsList(m, list)
    ensures IsList(m, list) ==> Recomputed(s.mem, list) == Recomputed(m, list)
  {
    if IsList(m, list) {
      AnchorsKept(s, m, low, list);
    }
  }

  lemma DoKeeps(s: State, a: Act, m: Mem, low: nat)
    requires Kept(s, m, low) && MemoTrue(s, m, low) && Sealed(m, low) && Closed(m) && Can(s, a)
    ensures Kept(Do(s, a), m, low) && MemoTrue(Do(s, a), m, low)
  {
    match a
    case Writes(_, _) =>
    case Makes(_) =>
    case Asks(list) =>
      hide Recomputed;
      if low <= list < |m| {
        RecomputedKept(s, m, low, list);
      }
    case Numbers(_) =>
    case Copies(v) =>
      if Copy(s.mem, v, 0).Copied? {
        CopyExtends(s.mem, v, 0);
      }
  }

  lemma {:induction false} RunKeeps(s: State, acts: seq<Act>, end: State, m: Mem, low: nat)
    requires Kept(s, m, low) && MemoTrue(s, m, low) && Sealed(m, low) && Closed(m) && Run(s, acts, end)
    ensures Kept(end, m, low) && MemoTrue(end, m, low)
    decreases |acts|
  {
    if acts != [] {
      DoKeeps(s, acts[0], m, low);
      hide Kept, MemoTrue, Sealed, Closed;
      RunKeeps(Do(s, acts[0]), acts[1..], end, m, low);
    }
  }

  lemma {:induction false} UnfoldKept(s: State, m: Mem, low: nat, v: Value, n: nat)
    requires Kept(s, m, low) && Sealed(m, low) && Closed(m) && Private(v, low, m) && ValueOk(v, |m|)
    ensures Unfold(s.mem, v, n) == Unfold(m, v, n)
    decreases n, 0
  {
    if n > 0 && v.Ptr? && v.ref >= low {
      assert CellPrivate(m[v.ref], low, m) && CellOk(m[v.ref], m);
      if m[v.ref].View? {
        SlicesKept(s, m, low, v.ref);
      } else if m[v.ref].Node? {
        UnfoldAllKept(s, m, low, m[v.ref].items, n - 1);
      }
    }
  }

  lemma {:induction false} UnfoldAllKept(s: State, m: Mem, low: nat, vs: seq<Value>, n: nat)
    requires Kept(s, m, low) && Sealed(m, low) && Closed(m)
    requires forall k | 0 <= k < |vs| :: Private(vs[k], low, m) && ValueOk(vs[k], |m|)
    ensures UnfoldAll(s.mem, vs, n) == UnfoldAll(m, vs, n)
    decreases n, |vs| + 1
  {
    if vs != [] {
      UnfoldKept(s, m, low, vs[0], n);
      UnfoldAllKept(s, m, low, vs[1..], n);
    }
  }

  /** A caller who knew every object there was when the copy was taken, and does whatever it likes
      with them afterwards, changes nothing in the copy; and the memoised digest of every anchor list
      in the copy is at any time the digest computed afresh, and the same as at the start. */
  lemma CopyNeverDrifts(m: Mem, config: Value, known: set<Ref>, memo: map<Ref, string>, ids: PK.Ids,
      acts: seq<Act>, end: State)
    requires Closed(m) && ValueOk(config, |m|) && Copy(m, config, 0).Copied?
    requires (forall r <- known :: r < |m|) && (forall list <- memo :: list < |m|)
    requires Run(State(Copy(m, config, 0).mem, known, memo, ids), acts, end)
    ensures
      var Copied(copy, m') := Copy(m, config, 0);
      && (forall n: nat :: Unfold(end.mem, copy, n) == Unfold(m', copy, n))
      && (forall list | |m| <= list < |m'| && IsList(m', list) ::
            && IsList(end.mem, list) && Recomputed(end.mem, list) == Recomputed(m', list)
            && (list in end.memo ==> end.memo[list] == Recomputed(end.mem, list)))
  {
    var Copied(copy, m') := Copy(m, config, 0);
    var start := State(m', known, memo, ids);
    hide Recomputed, Unfold;
    CopyGood(m, config, 0);
    StartKept(m, m', start);
    RunKeeps(start, acts, end, m', |m|);
    forall n: nat ensures Unfold(end.mem, copy, n) == Unfold(m', copy, n) {
      UnfoldKept(end, m', |m|, copy, n);
    }
    forall list | |m| <= list < |m'| && IsList(m', list)
      ensures IsList(end.mem, list) && Recomputed(end.mem, list) == Recomputed(m', list)
      ensures list in end.memo ==> end.memo[list] == Recomputed(end.mem, list)
    {
      RecomputedKept(end, m', |m|, list);
    }
  }

  lemma StartKept(m: Mem, m': Mem, start: State)
    requires m <= m' && start.mem == m' && forall r <- start.known :: r < |m|
    requires forall list <- start.memo :: list < |m|
    ensures Kept(start, m', |m|) && MemoTrue(start, m', |m|)
  {
  }

  // ---------------------------------------------------------------- where it ends

  /** A heap with a list of one anchor of one byte. */
  predicate OneAnchor(m: Mem) {
    |m| >= 3 && m[0] == Buffer([1]) && m[1] == View(0, 0, 1) && m[2] == Node(Array, [Ptr(1)])
  }

  /** Once its digest is asked for, a write to that byte makes the memo stale. */
  lemma GoesStale(before: State)
    requires OneAnchor(before.mem) && 0 in before.known && 2 !in before.memo
    ensures
      var acts := [Asks(2), Writes(0, Buffer([2]))];
      var end := Do(Do(before, acts[0]), acts[1]);
      && Run(before, acts, end) && IsList(end.mem, 2)
      && 2 in end.memo && end.memo[2] == Recomputed(before.mem, 2) != Recomputed(end.mem, 2)
  {
    var asked := Do(before, Asks(2));
    var end := Do(asked, Writes(0, Buffer([2])));
    assert Run(end, [], end);
    assert [Asks(2), Writes(0, Buffer([2]))][1..] == [Writes(0, Buffer([2]))];
    assert [Writes(0, Buffer([2]))][1..] == [];
    assert Run(asked, [Writes(0, Buffer([2]))], end);
    AD.OneByteChanged(AnchorsAt(before.mem, [Ptr(1)]), AnchorsAt(end.mem, [Ptr(1)]), 0, 0);
  }

  /** The copy is private only as long as nobody hands it out.  A caller who can name the copied bytes,
      as one can through the public `options` of a Client, makes the memo stale. */
  lemma ReachedCopyDrifts(known: set<Ref>)
    requires 0 in known
    ensures
      var m := [Buffer([1]), View(0, 0, 1), Node(Array, [Ptr(1)])];
      var end := Do(Do(State(m, known, map[], map[]), Asks(2)), Writes(0, Buffer([2])));
      && Run(State(m, known, map[], map[]), [Asks(2), Writes(0, Buffer([2]))], end)
      && 2 in end.memo && IsList(end.mem, 2) && end.memo[2] != Recomputed(end.mem, 2)
  {
    GoesStale(State([Buffer([1]), View(0, 0, 1), Node(Array, [Ptr(1)])], known, map[], map[]));
  }

  const ANCHORS_MODE: Value := Str([97, 110, 99, 104, 111, 114, 115])

  /** A trust configuration that is a class instance, with its mode and its one anchor. */
  function InstanceConfig(): Mem {
    [Buffer([1]), View(0, 0, 1), Node(Array, [Ptr(1)]), Instance(["mode", "anchors"], [ANCHORS_MODE, Ptr(2)])]
  }

  /** A class instance in the place of a plain object is not copied at all: the caller goes on holding
      the very anchors that are validated against, and a write to them leaves the memo stale. */
  lemma InstanceGoesStale(known: set<Ref>)
    requires 0 in known
    ensures
      var m := InstanceConfig();
      var before := State(m, known, map[], map[]);
      var acts := [Asks(2), Writes(0, Buffer([2]))];
      && Closed(m) && Copy(m, Ptr(3), 0) == Copied(Ptr(3), m)
      && exists end :: Run(before, acts, end) && IsList(end.mem, 2) && 2 in end.memo
                       && end.memo[2] != Recomputed(end.mem, 2)
  {
    InstanceClosed();
    var before := State(InstanceConfig(), known, map[], map[]);
    assert OneAnchor(before.mem);
    hide InstanceConfig;
    GoesStale(before);
  }

  lemma InstanceClosed()
    ensures Closed(InstanceConfig()) && Copy(InstanceConfig(), Ptr(3), 0) == Copied(Ptr(3), InstanceConfig())
  {
  }
}
