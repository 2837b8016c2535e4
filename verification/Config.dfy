/** `deepCopyConfig` of src/client.js: the private copy a Client takes of its trust and tls options.

    The heap is explicit.  A reference is an index into it, and every object that exists has one. */
module Config {
  import AD = AnchorDigest

  type Ref = nat

  datatype Value =
    | Atom(code: int)              // a number, a boolean, null, undefined
    | Str(units: seq<AD.CodeUnit>)
    | Ptr(ref: Ref)

  /** Arrays have no names; plain objects name each item, in the order of Object.entries. */
  datatype Kind = Array | Plain(names: seq<string>)

  datatype Cell =
    | Buffer(bytes: seq<AD.Byte>)
    | View(buffer: Ref, offset: nat, length: nat)
    | Node(kind: Kind, items: seq<Value>)
    | Function
    | Instance(names: seq<string>, items: seq<Value>)   // of a class, with its own properties

  type Mem = seq<Cell>

  const PROTO := "__proto__"

  // ---------------------------------------------------------------- the copy

  function Slice(m: Mem, v: Cell): seq<AD.Byte>
    requires v.View?
  {
    if v.buffer < |m| && m[v.buffer].Buffer? && v.offset + v.length <= |m[v.buffer].bytes|
    then m[v.buffer].bytes[v.offset..v.offset + v.length] else []
  }

  /** Assigning to `out["__proto__"]` makes no property of that name. */
  function Assigned(names: seq<string>, items: seq<Value>): (r: (seq<string>, seq<Value>))
    ensures |r.0| == |r.1|
    ensures forall v <- r.1 :: v in items
  {
    if names == [] || items == [] then ([], [])
    else
      var rest := Assigned(names[1..], items[1..]);
      if names[0] == PROTO then rest else ([names[0]] + rest.0, [items[0]] + rest.1)
  }

  function Rebuilt(kind: Kind, items: seq<Value>): Cell {
    match kind
    case Array => Node(Array, items)
    case Plain(names) => var (names', items') := Assigned(names, items); Node(Plain(names'), items')
  }

  datatype Copied = Copied(value: Value, mem: Mem) | TooDeep

  datatype CopiedAll = CopiedAll(values: seq<Value>, mem: Mem) | SomeTooDeep

  function Copy(m: Mem, v: Value, depth: nat): Copied
    requires depth <= 9
    decreases 9 - depth, 0, 0
  {
    if depth > 8 then TooDeep
    else if !v.Ptr? || v.ref >= |m| then Copied(v, m)
    else
      match m[v.ref]
      case Buffer(_) => Copied(v, m)
      case Function => Copied(v, m)
      case Instance(_, _) => Copied(v, m)
      case View(_, _, _) =>
        var bytes := Slice(m, m[v.ref]);
        Copied(Ptr(|m| + 1), m + [Buffer(bytes), View(|m|, 0, |bytes|)])
      case Node(kind, items) =>
        match CopyAll(m, items, depth + 1)
        case SomeTooDeep => TooDeep
        case CopiedAll(values, m') => Copied(Ptr(|m'|), m' + [Rebuilt(kind, values)])
  }

  function CopyAll(m: Mem, vs: seq<Value>, depth: nat): CopiedAll
    requires depth <= 9
    decreases 9 - depth, 1, |vs|
  {
    if vs == [] then CopiedAll([], m)
    else
      match Copy(m, vs[0], depth)
      case TooDeep => SomeTooDeep
      case Copied(v, m') =>
        match CopyAll(m', vs[1..], depth)
        case SomeTooDeep => SomeTooDeep
        case CopiedAll(values, m'') => CopiedAll([v] + values, m'')
  }

  // ---------------------------------------------------------------- heaps

  predicate ValueOk(v: Value, size: nat) {
    v.Ptr? ==> v.ref < size
  }

  predicate CellOk(c: Cell, m: Mem) {
    match c
    case View(b, offset, length) => b < |m| && m[b].Buffer? && offset + length <= |m[b].bytes|
    case Node(kind, items) =>
      && (forall k | 0 <= k < |items| :: ValueOk(items[k], |m|))
      && (kind.Plain? ==> |kind.names| == |items|)
    case Instance(names, items) =>
      |names| == |items| && forall k | 0 <= k < |items| :: ValueOk(items[k], |m|)
    case _ => true
  }

  /** No reference dangles, and every view lies inside its buffer. */
  ghost predicate Closed(m: Mem) {
    forall r | 0 <= r < |m| :: CellOk(m[r], m)
  }

  predicate ByReference(c: Cell) {
    c.Function? || c.Instance? || c.Buffer?
  }

  /** The value points at nothing below `low`, unless at something that is always shared. */
  predicate Private(v: Value, low: nat, m: Mem) {
    v.Ptr? && v.ref < low && v.ref < |m| ==> ByReference(m[v.ref])
  }

  predicate CellPrivate(c: Cell, low: nat, m: Mem) {
    match c
    case Function => false
    case Instance(_, _) => false
    case Buffer(_) => true
    case View(b, _, _) => low <= b
    case Node(_, items) => forall k | 0 <= k < |items| :: Private(items[k], low, m)
  }

  /** Everything from `low` on is sealed off from what lies below. */
  ghost predicate Sealed(m: Mem, low: nat) {
    forall r | low <= r < |m| :: CellPrivate(m[r], low, m)
  }

  // ---------------------------------------------------------------- what a value looks like

  datatype Tree =
    | Leaf(value: Value)
    | Bytes(bytes: seq<AD.Byte>)
    | Shared(ref: Ref)
    | Branch(kind: Kind, items: seq<Tree>)
    | Cut

  /** The value as a tree, followed through `n` levels. */
  function Unfold(m: Mem, v: Value, n: nat): Tree
    decreases n, 0
  {
    if n == 0 then Cut
    else if !v.Ptr? || v.ref >= |m| then Leaf(v)
    else
      match m[v.ref]
      case Buffer(_) => Shared(v.ref)
      case Function => Shared(v.ref)
      case Instance(_, _) => Shared(v.ref)
      case View(_, _, _) => Bytes(Slice(m, m[v.ref]))
      case Node(kind, items) => Branch(kind, UnfoldAll(m, items, n - 1))
  }

  function UnfoldAll(m: Mem, vs: seq<Value>, n: nat): (r: seq<Tree>)
    ensures |r| == |vs|
    decreases n, |vs| + 1
  {
    if vs == [] then [] else [Unfold(m, vs[0], n)] + UnfoldAll(m, vs[1..], n)
  }

  /** The items of a plain object that are not named __proto__. */
  function Named(names: seq<string>, trees: seq<Tree>): (seq<string>, seq<Tree>) {
    if names == [] || trees == [] then ([], [])
    else
      var rest := Named(names[1..], trees[1..]);
      if names[0] == PROTO then rest else ([names[0]] + rest.0, [trees[0]] + rest.1)
  }

  /** The tree without the items named __proto__, at every level. */
  function Strip(t: Tree): Tree {
    match t
    case Branch(Array, items) => Branch(Array, StripAll(items))
    case Branch(Plain(names), items) =>
      var (names', items') := Named(names, StripAll(items));
      Branch(Plain(names'), items')
    case _ => t
  }

  function StripAll(ts: seq<Tree>): (r: seq<Tree>)
    ensures |r| == |ts|
  {
    if ts == [] then [] else [Strip(ts[0])] + StripAll(ts[1..])
  }

  // ---------------------------------------------------------------- the copy is the same, and private

  lemma {:induction false} UnfoldGrows(m: Mem, m': Mem, v: Value, n: nat)
    requires Closed(m) && m <= m' && ValueOk(v, |m|)
    ensures Unfold(m', v, n) == Unfold(m, v, n)
    decreases n, 0
  {
    if n > 0 && v.Ptr? {
      assert CellOk(m[v.ref], m);
      if m[v.ref].Node? {
        UnfoldAllGrows(m, m', m[v.ref].items, n - 1);
      }
    }
  }

  lemma {:induction false} UnfoldAllGrows(m: Mem, m': Mem, vs: seq<Value>, n: nat)
    requires Closed(m) && m <= m' && (forall k | 0 <= k < |vs| :: ValueOk(vs[k], |m|))
    ensures UnfoldAll(m', vs, n) == UnfoldAll(m, vs, n)
    decreases n, |vs| + 1
  {
    if vs != [] {
      UnfoldGrows(m, m', vs[0], n);
      UnfoldAllGrows(m, m', vs[1..], n);
    }
  }

  lemma CellOkGrows(c: Cell, m: Mem, m': Mem)
    requires CellOk(c, m) && m <= m'
    ensures CellOk(c, m')
  {
  }

  lemma ClosedPlus(m: Mem, c: Cell)
    requires Closed(m) && CellOk(c, m)
    ensures Closed(m + [c])
  {
    forall r | 0 <= r < |m + [c]| ensures CellOk((m + [c])[r], m + [c]) {
      CellOkGrows(if r < |m| then m[r] else c, m, m + [c]);
    }
  }

  lemma SealedPlus(m: Mem, c: Cell, low: nat)
    requires Closed(m) && Sealed(m, low) && CellPrivate(c, low, m) && CellOk(c, m)
    ensures Sealed(m + [c], low)
  {
    forall r | low <= r < |m + [c]| ensures CellPrivate((m + [c])[r], low, m + [c]) {
      var d := if r < |m| then m[r] else c;
      assert CellOk(d, m);
    }
  }

  lemma SealedGrows(m: Mem, m': Mem, low: nat, v: Value)
    requires m <= m' && ValueOk(v, |m|)
    ensures Private(v, low, m') == Private(v, low, m)
  {
  }

  /** Two sealed pieces, one on top of the other. */
  lemma SealedTogether(m: Mem, m': Mem, low: nat)
    requires Closed(m) && Sealed(m, low) && m <= m' && low <= |m| && Sealed(m', |m|)
    ensures Sealed(m', low)
  {
    forall r | low <= r < |m'| ensures CellPrivate(m'[r], low, m') {
      if r < |m| {
        assert CellOk(m[r], m);
      }
    }
  }

  /** A freshly copied value is also private to a lower mark. */
  lemma PrivateBelow(v: Value, low: nat, high: nat, m: Mem)
    requires low <= high && Private(v, high, m)
    ensures Private(v, low, m)
  {
  }

  lemma {:induction false} AssignedNames(names: seq<string>, items: seq<Value>, m: Mem, n: nat)
    ensures
      var (names', items') := Assigned(names, items);
      Named(names, UnfoldAll(m, items, n)) == (names', UnfoldAll(m, items', n))
  {
    if names != [] && items != [] {
      AssignedNames(names[1..], items[1..], m, n);
      assert UnfoldAll(m, items, n)[1..] == UnfoldAll(m, items[1..], n);
      var rest := Assigned(names[1..], items[1..]);
      if names[0] != PROTO {
        var more := [items[0]] + rest.1;
        assert more[1..] == rest.1;
      }
    }
  }

  /** What a copy w must satisfy: it extends the heap, leaves no reference dangling, and is sealed off
      from what there was. */
  ghost predicate GoodCopy(m: Mem, w: Value, m': Mem) {
    && m <= m' && Closed(m') && Sealed(m', |m|)
    && ValueOk(w, |m'|) && Private(w, |m|, m')
  }

  ghost predicate GoodCopies(m: Mem, ws: seq<Value>, m': Mem) {
    && m <= m' && Closed(m') && Sealed(m', |m|)
    && forall k | 0 <= k < |ws| :: ValueOk(ws[k], |m'|) && Private(ws[k], |m|, m')
  }

  lemma {:induction false} CopyGood(m: Mem, v: Value, depth: nat)
    requires Closed(m) && ValueOk(v, |m|) && depth <= 9 && Copy(m, v, depth).Copied?
    ensures GoodCopy(m, Copy(m, v, depth).value, Copy(m, v, depth).mem)
    decreases 9 - depth, 0, 0
  {
    if v.Ptr? {
      var c := m[v.ref];
      assert CellOk(c, m);
      if c.View? {
        var bytes := Slice(m, c);
        ClosedPlus(m, Buffer(bytes));
        ClosedPlus(m + [Buffer(bytes)], View(|m|, 0, |bytes|));
        assert m + [Buffer(bytes)] + [View(|m|, 0, |bytes|)] == m + [Buffer(bytes), View(|m|, 0, |bytes|)];
      } else if c.Node? {
        CopyAllGood(m, c.items, depth + 1);
        var all := CopyAll(m, c.items, depth + 1);
        NodeGood(m, c.kind, all.values, all.mem);
      }
    }
  }

  lemma NodeGood(m: Mem, kind: Kind, ws: seq<Value>, m': Mem)
    requires GoodCopies(m, ws, m')
    ensures GoodCopy(m, Ptr(|m'|), m' + [Rebuilt(kind, ws)])
  {
    var c := Rebuilt(kind, ws);
    forall k | 0 <= k < |c.items| ensures c.items[k] in ws {}
    assert CellOk(c, m');
    assert CellPrivate(c, |m|, m');
    ClosedPlus(m', c);
    SealedPlus(m', c, |m|);
  }

  lemma {:induction false} CopyAllGood(m: Mem, vs: seq<Value>, depth: nat)
    requires Closed(m) && (forall k | 0 <= k < |vs| :: ValueOk(vs[k], |m|))
    requires depth <= 9 && CopyAll(m, vs, depth).CopiedAll?
    ensures GoodCopies(m, CopyAll(m, vs, depth).values, CopyAll(m, vs, depth).mem)
    ensures |CopyAll(m, vs, depth).values| == |vs|
    decreases 9 - depth, 1, |vs|
  {
    if vs != [] {
      CopyGood(m, vs[0], depth);
      var first := Copy(m, vs[0], depth);
      CopyAllGood(first.mem, vs[1..], depth);
      var rest := CopyAll(first.mem, vs[1..], depth);
      Joined(m, first.value, first.mem, rest.values, rest.mem);
    }
  }

  lemma Joined(m: Mem, w: Value, m1: Mem, ws: seq<Value>, m2: Mem)
    requires GoodCopy(m, w, m1) && GoodCopies(m1, ws, m2)
    ensures GoodCopies(m, [w] + ws, m2)
  {
    SealedTogether(m1, m2, |m|);
    forall k | 0 <= k < |[w] + ws|
      ensures ValueOk(([w] + ws)[k], |m2|) && Private(([w] + ws)[k], |m|, m2)
    {
      if k == 0 {
        SealedGrows(m1, m2, |m|, w);
      } else {
        PrivateBelow(ws[k - 1], |m|, |m1|, m2);
      }
    }
  }

  lemma {:induction false} CopySame(m: Mem, v: Value, depth: nat, n: nat)
    requires Closed(m) && ValueOk(v, |m|) && depth <= 9 && Copy(m, v, depth).Copied?
    ensures Unfold(Copy(m, v, depth).mem, Copy(m, v, depth).value, n) == Strip(Unfold(m, v, n))
    decreases 9 - depth, 0, 0
  {
    if v.Ptr? && n > 0 {
      var c := m[v.ref];
      assert CellOk(c, m);
      if c.Node? {
        CopyAllSame(m, c.items, depth + 1, n - 1);
        CopyAllGood(m, c.items, depth + 1);
        var all := CopyAll(m, c.items, depth + 1);
        NodeSame(m, v, all.values, all.mem, n);
      }
    }
  }

  lemma NodeSame(m: Mem, v: Value, ws: seq<Value>, m': Mem, n: nat)
    requires v.Ptr? && v.ref < |m| && m[v.ref].Node? && n > 0 && |ws| == |m[v.ref].items|
    requires GoodCopies(m, ws, m')
    requires UnfoldAll(m', ws, n - 1) == StripAll(UnfoldAll(m, m[v.ref].items, n - 1))
    ensures Unfold(m' + [Rebuilt(m[v.ref].kind, ws)], Ptr(|m'|), n) == Strip(Unfold(m, v, n))
  {
    hide GoodCopies, Closed, Sealed;
    var kind := m[v.ref].kind;
    var c := Rebuilt(kind, ws);
    RebuiltOk(m, ws, m', kind);
    UnfoldAllGrows(m', m' + [c], c.items, n - 1);
    assert Unfold(m' + [c], Ptr(|m'|), n) == Branch(c.kind, UnfoldAll(m', c.items, n - 1));
    if kind.Plain? {
      AssignedNames(kind.names, ws, m', n - 1);
    }
  }

  lemma RebuiltOk(m: Mem, ws: seq<Value>, m': Mem, kind: Kind)
    requires GoodCopies(m, ws, m')
    ensures Closed(m') && forall k | 0 <= k < |Rebuilt(kind, ws).items| :: ValueOk(Rebuilt(kind, ws).items[k], |m'|)
  {
    var c := Rebuilt(kind, ws);
    forall k | 0 <= k < |c.items| ensures c.items[k] in ws {}
  }

  lemma {:induction false} CopyAllSame(m: Mem, vs: seq<Value>, depth: nat, n: nat)
    requires Closed(m) && (forall k | 0 <= k < |vs| :: ValueOk(vs[k], |m|))
    requires depth <= 9 && CopyAll(m, vs, depth).CopiedAll?
    ensures UnfoldAll(CopyAll(m, vs, depth).mem, CopyAll(m, vs, depth).values, n) == StripAll(UnfoldAll(m, vs, n))
    decreases 9 - depth, 1, |vs|
  {
    if vs != [] {
      var first := Copy(m, vs[0], depth);
      CopyGood(m, vs[0], depth);
      CopySame(m, vs[0], depth, n);
      var rest := CopyAll(first.mem, vs[1..], depth);
      CopyAllGood(first.mem, vs[1..], depth);
      CopyAllSame(first.mem, vs[1..], depth, n);
      UnfoldGrows(first.mem, rest.mem, first.value, n);
      UnfoldAllGrows(m, first.mem, vs[1..], n);
    }
  }
}
