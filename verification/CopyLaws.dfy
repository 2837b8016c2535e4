/** What the copy of a configuration keeps, loses and refuses. */
module CopyLaws {
  import opened Config
  import AD = AnchorDigest

  // ---------------------------------------------------------------- when it refuses

  predicate Child(m: Mem, v: Value, w: Value) {
    v.Ptr? && v.ref < |m| && m[v.ref].Node? && w in m[v.ref].items
  }

  /** Values reached one from the other, through items of arrays and plain objects. */
  ghost predicate Path(m: Mem, vs: seq<Value>) {
    vs != [] && forall k | 0 <= k < |vs| - 1 :: Child(m, vs[k], vs[k + 1])
  }

  /** Some value sits `further` levels below v. */
  ghost predicate Reaches(m: Mem, v: Value, further: nat) {
    exists vs :: Path(m, vs) && vs[0] == v && |vs| == further + 1
  }

  lemma ReachesBelow(m: Mem, v: Value, w: Value, further: nat)
    requires Child(m, v, w) && Reaches(m, w, further)
    ensures Reaches(m, v, further + 1)
  {
    var vs :| Path(m, vs) && vs[0] == w && |vs| == further + 1;
    assert Path(m, [v] + vs);
  }

  lemma ReachesFrom(m: Mem, v: Value, further: nat) returns (w: Value)
    requires Reaches(m, v, further + 1)
    ensures Child(m, v, w) && Reaches(m, w, further)
  {
    var vs :| Path(m, vs) && vs[0] == v && |vs| == further + 2;
    w := vs[1];
    assert Child(m, vs[0], vs[1]);
    assert Path(m, vs[1..]);
  }

  lemma ReachesGrows(m: Mem, m': Mem, v: Value, further: nat)
    requires Closed(m) && m <= m' && ValueOk(v, |m|)
    ensures Reaches(m', v, further) <==> Reaches(m, v, further)
    decreases further
  {
    if further == 0 {
      assert Path(m, [v]) && Path(m', [v]);
    } else if v.Ptr? {
      assert CellOk(m[v.ref], m);
      if Reaches(m', v, further) {
        var w := ReachesFrom(m', v, further - 1);
        ReachesGrows(m, m', w, further - 1);
        ReachesBelow(m, v, w, further - 1);
      }
      if Reaches(m, v, further) {
        var w := ReachesFrom(m, v, further - 1);
        ReachesGrows(m, m', w, further - 1);
        ReachesBelow(m', v, w, further - 1);
      }
    } else {
      NoChildren(m, v, further);
      NoChildren(m', v, further);
    }
  }

  lemma NoChildren(m: Mem, v: Value, further: nat)
    requires further > 0 && forall w :: !Child(m, v, w)
    ensures !Reaches(m, v, further)
  {
    if Reaches(m, v, further) {
      var w := ReachesFrom(m, v, further - 1);
    }
  }

  /** The copy is refused exactly when some value it visits lies deeper than eight levels. */
  lemma {:induction false} RefusedExactlyWhen(m: Mem, v: Value, depth: nat)
    requires Closed(m) && ValueOk(v, |m|) && depth <= 9
    ensures Copy(m, v, depth).TooDeep? <==> Reaches(m, v, 9 - depth)
    decreases 9 - depth, 0, 0
  {
    if depth == 9 {
      assert Path(m, [v]);
    } else if v.Ptr? && m[v.ref].Node? {
      var items := m[v.ref].items;
      assert CellOk(m[v.ref], m);
      AnyRefused(m, items, depth + 1);
      if Reaches(m, v, 9 - depth) {
        var w := ReachesFrom(m, v, 8 - depth);
        assert exists k | 0 <= k < |items| :: items[k] == w && Reaches(m, items[k], 8 - depth);
      }
      if k :| 0 <= k < |items| && Reaches(m, items[k], 8 - depth) {
        ReachesBelow(m, v, items[k], 8 - depth);
      }
    } else {
      NoChildren(m, v, 9 - depth);
    }
  }

  lemma {:induction false} AnyRefused(m: Mem, vs: seq<Value>, depth: nat)
    requires Closed(m) && (forall k | 0 <= k < |vs| :: ValueOk(vs[k], |m|)) && depth <= 9
    ensures CopyAll(m, vs, depth).SomeTooDeep? <==> exists k | 0 <= k < |vs| :: Reaches(m, vs[k], 9 - depth)
    decreases 9 - depth, 1, |vs|
  {
    hide Reaches;
    if vs != [] {
      RefusedExactlyWhen(m, vs[0], depth);
      var first := Copy(m, vs[0], depth);
      if first.Copied? {
        CopyGood(m, vs[0], depth);
        AnyRefused(first.mem, vs[1..], depth);
        forall k | 0 <= k < |vs| - 1
          ensures Reaches(first.mem, vs[1..][k], 9 - depth) <==> Reaches(m, vs[k + 1], 9 - depth)
        {
          ReachesGrows(m, first.mem, vs[k + 1], 9 - depth);
        }
        assert CopyAll(m, vs, depth).SomeTooDeep? <==> CopyAll(first.mem, vs[1..], depth).SomeTooDeep?;
      }
    }
  }

  /** A value from which some object is reached twice along one path is refused, so that the copy of
      any graph, cyclic or not, ends. */
  lemma CyclesRefused(m: Mem, vs: seq<Value>, i: nat, j: nat)
    requires Closed(m) && Path(m, vs) && ValueOk(vs[0], |m|) && i < j < |vs| && vs[i] == vs[j]
    ensures Copy(m, vs[0], 0).TooDeep?
  {
    var long := Round(m, vs, i, j, 10);
    assert Path(m, long[..10]);
    assert Reaches(m, vs[0], 9);
    RefusedExactlyWhen(m, vs[0], 0);
  }

  lemma {:induction false} Round(m: Mem, vs: seq<Value>, i: nat, j: nat, n: nat) returns (long: seq<Value>)
    requires Path(m, vs) && i < j < |vs| && vs[i] == vs[j]
    ensures Path(m, long) && long[0] == vs[0] && |long| >= n
    decreases n - |vs|
  {
    long := vs;
    if |vs| < n {
      var once := vs[..j] + vs[i..];
      forall k | 0 <= k < |once| - 1 ensures Child(m, once[k], once[k + 1]) {
        if k < j - 1 {
          assert once[k] == vs[k] && once[k + 1] == vs[k + 1];
        } else if k == j - 1 {
          assert once[k] == vs[j - 1] && once[k + 1] == vs[i] == vs[j];
        } else {
          assert once[k] == vs[k - j + i] && once[k + 1] == vs[k + 1 - j + i];
        }
      }
      long := Round(m, once, i, j, n);
    }
  }

  // ---------------------------------------------------------------- what is lost in the copy

  /** No plain object in the tree has an own property named __proto__. */
  ghost predicate NoProto(t: Tree) {
    t.Branch? ==>
      && (t.kind.Plain? ==> |t.kind.names| == |t.items| && PROTO !in t.kind.names)
      && forall k | 0 <= k < |t.items| :: NoProto(t.items[k])
  }

  ghost predicate Shaped(t: Tree) {
    t.Branch? ==>
      && (t.kind.Plain? ==> |t.kind.names| == |t.items|)
      && forall k | 0 <= k < |t.items| :: Shaped(t.items[k])
  }

  lemma {:induction false} NamedKeepsAll(names: seq<string>, ts: seq<Tree>)
    requires |names| == |ts|
    ensures |Named(names, ts).0| <= |names|
    ensures Named(names, ts) == (names, ts) <==> PROTO !in names
    ensures PROTO in names ==> |Named(names, ts).0| < |names|
  {
    if names != [] {
      NamedKeepsAll(names[1..], ts[1..]);
      assert names == [names[0]] + names[1..] && ts == [ts[0]] + ts[1..];
    }
  }

  /** The copy loses exactly the properties named __proto__: it looks like the original if and only if
      the original has none. */
  lemma {:induction false} StripIsIdentity(t: Tree)
    requires Shaped(t)
    ensures Strip(t) == t <==> NoProto(t)
  {
    if t.Branch? {
      StripAllIsIdentity(t.items);
      if t.kind.Plain? {
        NamedKeepsAll(t.kind.names, StripAll(t.items));
      }
    }
  }

  lemma {:induction false} StripAllIsIdentity(ts: seq<Tree>)
    requires forall k | 0 <= k < |ts| :: Shaped(ts[k])
    ensures StripAll(ts) == ts <==> forall k | 0 <= k < |ts| :: NoProto(ts[k])
  {
    if ts != [] {
      StripIsIdentity(ts[0]);
      StripAllIsIdentity(ts[1..]);
      assert ts == [ts[0]] + ts[1..];
      assert StripAll(ts) == ts <==> Strip(ts[0]) == ts[0] && StripAll(ts[1..]) == ts[1..] by {
        assert StripAll(ts)[0] == Strip(ts[0]) && StripAll(ts)[1..] == StripAll(ts[1..]);
      }
      assert (forall k | 0 <= k < |ts| :: NoProto(ts[k])) <==>
             NoProto(ts[0]) && (forall k | 0 <= k < |ts[1..]| :: NoProto(ts[1..][k])) by {
        assert forall k | 0 < k < |ts| :: ts[k] == ts[1..][k - 1];
      }
    }
  }

  lemma {:induction false} UnfoldShaped(m: Mem, v: Value, n: nat)
    requires Closed(m) && ValueOk(v, |m|)
    ensures Shaped(Unfold(m, v, n))
    decreases n, 0
  {
    if n > 0 && v.Ptr? {
      assert CellOk(m[v.ref], m);
      if m[v.ref].Node? {
        UnfoldAllShaped(m, m[v.ref].items, n - 1);
      }
    }
  }

  lemma {:induction false} UnfoldAllShaped(m: Mem, vs: seq<Value>, n: nat)
    requires Closed(m) && (forall k | 0 <= k < |vs| :: ValueOk(vs[k], |m|))
    ensures forall k | 0 <= k < |vs| :: Shaped(UnfoldAll(m, vs, n)[k])
    decreases n, |vs| + 1
  {
    if vs != [] {
      UnfoldShaped(m, vs[0], n);
      UnfoldAllShaped(m, vs[1..], n);
    }
  }

  /** A copy that is not refused leaves every existing object as it was, looks like the original but
      for its __proto__ properties, and points at nothing that existed before except functions, class
      instances and array buffers that stood in the configuration themselves. */
  lemma CopyIsPrivateAndSame(m: Mem, v: Value, n: nat)
    requires Closed(m) && ValueOk(v, |m|) && Copy(m, v, 0).Copied?
    ensures
      var Copied(w, m') := Copy(m, v, 0);
      && m <= m' && Closed(m')
      && Sealed(m', |m|) && Private(w, |m|, m')
      && Unfold(m', w, n) == Strip(Unfold(m, v, n))
      && (Unfold(m', w, n) == Unfold(m, v, n) <==> NoProto(Unfold(m, v, n)))
  {
    CopyGood(m, v, 0);
    CopySame(m, v, 0, n);
    UnfoldShaped(m, v, n);
    StripIsIdentity(Unfold(m, v, n));
  }

  // ---------------------------------------------------------------- cell by cell

  /** `bytes` are the len bytes of a buffer from `off` on. */
  predicate BytesFrom(bytes: seq<AD.Byte>, buffer: Cell, off: nat, len: nat) {
    && buffer.Buffer? && off + len <= |buffer.bytes| && |bytes| == len
    && forall i | 0 <= i < len :: bytes[i] == buffer.bytes[off + i]
  }

  /** A view, at whatever depth it stands, becomes one of its own over a buffer of its own, which holds the
      bytes that were in view and no others. */
  lemma ViewCopied(m: Mem, r: Ref, b: Ref, off: nat, len: nat, depth: nat)
    requires Closed(m) && r < |m| && m[r] == View(b, off, len) && depth <= 8
    ensures Copy(m, Ptr(r), depth).Copied?
    ensures
      var Copied(w, m') := Copy(m, Ptr(r), depth);
      && m <= m' && w.Ptr? && |m| <= w.ref < |m'|
      && m'[w.ref].View? && m'[w.ref].offset == 0 && m'[w.ref].length == len
      && |m| <= m'[w.ref].buffer < |m'| && BytesFrom(m'[m'[w.ref].buffer].bytes, m[b], off, len)
  {
    assert CellOk(m[r], m);
  }

  /** And that is what a view looks like. */
  lemma ViewLooks(m: Mem, r: Ref, b: Ref, off: nat, len: nat, n: nat)
    requires Closed(m) && r < |m| && m[r] == View(b, off, len) && n > 0
    ensures Unfold(m, Ptr(r), n).Bytes? && BytesFrom(Unfold(m, Ptr(r), n).bytes, m[b], off, len)
  {
    assert CellOk(m[r], m);
  }

  lemma {:induction false} ItemLooks(m: Mem, vs: seq<Value>, n: nat, k: nat)
    requires k < |vs|
    ensures UnfoldAll(m, vs, n)[k] == Unfold(m, vs[k], n)
  {
    if k > 0 {
      ItemLooks(m, vs[1..], n, k - 1);
    }
  }

  /** An array or a plain object looks like its items, in their places and under their names; anything else
      that is not a view is itself. */
  lemma NodeLooks(m: Mem, v: Value, n: nat)
    requires n > 0 && !(v.Ptr? && v.ref < |m| && m[v.ref].View?)
    ensures
      var t := Unfold(m, v, n);
      if v.Ptr? && v.ref < |m| && m[v.ref].Node? then
        && t.Branch? && t.kind == m[v.ref].kind && |t.items| == |m[v.ref].items|
        && forall k | 0 <= k < |t.items| :: t.items[k] == Unfold(m, m[v.ref].items[k], n - 1)
      else if v.Ptr? && v.ref < |m| then t == Shared(v.ref)
      else t == Leaf(v)
  {
    if v.Ptr? && v.ref < |m| && m[v.ref].Node? {
      forall k | 0 <= k < |m[v.ref].items|
        ensures UnfoldAll(m, m[v.ref].items, n - 1)[k] == Unfold(m, m[v.ref].items[k], n - 1)
      {
        ItemLooks(m, m[v.ref].items, n - 1, k);
      }
    }
  }

  /** Exactly the properties named __proto__ are left out of an object, and the others keep their
      values; if there is none, all is as it was. */
  lemma {:induction false} OnlyProtoGoes(names: seq<string>, items: seq<Value>)
    requires |names| == |items|
    ensures
      var (names', items') := Assigned(names, items);
      && |names'| == |items'| <= |names| && "__proto__" !in names'
      && (forall k | 0 <= k < |names| :: names[k] != "__proto__" ==>
            exists j | 0 <= j < |names'| :: names'[j] == names[k] && items'[j] == items[k])
      && ("__proto__" !in names ==> names' == names && items' == items)
  {
    if names != [] {
      OnlyProtoGoes(names[1..], items[1..]);
      var (rest, more) := Assigned(names[1..], items[1..]);
      var (names', items') := Assigned(names, items);
      assert names == [names[0]] + names[1..] && items == [items[0]] + items[1..];
      forall k | 0 <= k < |names| && names[k] != "__proto__"
        ensures exists j | 0 <= j < |names'| :: names'[j] == names[k] && items'[j] == items[k]
      {
        if k == 0 {
          assert names'[0] == names[0] && items'[0] == items[0];
        } else {
          assert names[1..][k - 1] == names[k] && items[1..][k - 1] == items[k];
          var j :| 0 <= j < |rest| && rest[j] == names[k] && more[j] == items[k];
          var at := if names[0] == "__proto__" then j else j + 1;
          assert names'[at] == names[k] && items'[at] == items[k];
        }
      }
    }
  }
}
