/** The key of a URL over the life of a client: computed from the private copies of its trust and tls
    options, with memoised digests and callback numbers, while the caller does what it likes. */
module KeyStability {
  import opened Wrappers
  import opened Config
  import opened Memo
  import AD = AnchorDigest
  import T = Text
  import PK = PoolKey

  // ---------------------------------------------------------------- reading a trust configuration

  /** A code unit as a character of its own; characters leave out the surrogates. */
  function CharOf(unit: AD.CodeUnit): char {
    if unit < 0xd800 then unit as char else (unit + 0x1_0000) as char
  }

  function Chars(units: seq<AD.CodeUnit>): string {
    seq(|units|, k requires 0 <= k < |units| => CharOf(units[k]))
  }

  function Lookup(names: seq<string>, items: seq<Value>, name: string): Option<Value> {
    if names == [] || items == [] then None
    else if names[0] == name then Some(items[0])
    else Lookup(names[1..], items[1..], name)
  }

  /** The property of that name of a plain object. */
  function FieldAt(m: Mem, r: Ref, name: string): Option<Value> {
    if r < |m| && m[r].Node? && m[r].kind.Plain? then Lookup(m[r].kind.names, m[r].items, name) else None
  }

  function TextAt(v: Option<Value>): Option<string> {
    if v.Some? && v.value.Str? then Some(Chars(v.value.units)) else None
  }

  /** The items of an array that stands under a name. */
  function ListAt(m: Mem, v: Option<Value>): Option<seq<Value>> {
    if v.Some? && v.value.Ptr? && IsList(m, v.value.ref) then Some(m[v.value.ref].items) else None
  }

  function PinsAt(m: Mem, v: Option<Value>): Option<seq<string>> {
    match ListAt(m, v)
    case None => None
    case Some(items) => Some(seq(|items|, k requires 0 <= k < |items| => PK.OrElse(TextAt(Some(items[k])), "")))
  }

  function AnchorListAt(m: Mem, v: Option<Value>): Option<seq<AD.Anchor>> {
    match ListAt(m, v) case None => None case Some(items) => Some(AnchorsAt(m, items))
  }

  function VerifyAt(m: Mem, v: Option<Value>): PK.Callback {
    if v.Some? && v.value.Ptr? && v.value.ref < |m| && m[v.value.ref].Function?
    then PK.Callback(v.value.ref) else PK.NotAFunction
  }

  function TrustAt(m: Mem, r: Ref): PK.Trust {
    PK.Trust(
      TextAt(FieldAt(m, r, "mode")), TextAt(FieldAt(m, r, "revocation")), PinsAt(m, FieldAt(m, r, "pins")),
      AnchorListAt(m, FieldAt(m, r, "anchors")), VerifyAt(m, FieldAt(m, r, "verify")))
  }

  // ---------------------------------------------------------------- the key as it is computed

  /** anchorDigest(trust.anchors): memoised for an array, computed for the empty default. */
  function DigestNow(s: State, r: Ref): string {
    var anchors := FieldAt(s.mem, r, "anchors");
    if ListAt(s.mem, anchors).None? then AD.Hex(AD.Digest([]))
    else if anchors.value.ref in s.memo then s.memo[anchors.value.ref]
    else Recomputed(s.mem, anchors.value.ref)
  }

  /** trustFingerprint with that digest. */
  function TrustTextWith(t: PK.Trust, ids: PK.Ids, digest: string): string
    requires PK.Covers(ids, t.verify)
  {
    var counted := T.Numeral(|PK.OrElse(t.anchors, [])|, 10) + ":" + digest;
    var mode := PK.Mode(t);
    if mode == "none" then "none|" + PK.PinsText(t)
    else if mode == "custom" then "custom:" + PK.CallbackText(ids, t.verify)
    else if mode == "system" then "system|" + PK.RevText(t)
    else if mode == "anchors" then "anchors:" + counted + "|" + PK.RevText(t)
    else if mode == "pinned" then
      "pinned|" + PK.PinsText(t) + "|" + (if t.anchors.None? then "anchors=system" else "anchors=" + counted)
      + "|" + PK.RevText(t)
    else "unknown:" + mode
  }

  /** `site` gives scheme, host, port and proxy; `json` is what is written for tls options. */
  function InputAt(site: PK.Input, json: Tree -> Option<string>, m: Mem, trust: Ref, tls: Value): PK.Input {
    site.(trust := TrustAt(m, trust), tls := json(Unfold(m, tls, 9)))
  }

  function KeyNow(site: PK.Input, json: Tree -> Option<string>, s: State, trust: Ref, tls: Value): string
    requires PK.Covers(s.ids, TrustAt(s.mem, trust).verify)
  {
    var i := InputAt(site, json, s.mem, trust, tls);
    PK.SiteText(i) + "|" + PK.ProxyText(i.proxy) + "|" + TrustTextWith(i.trust, s.ids, DigestNow(s, trust))
    + "|" + PK.TlsText(i)
  }

  lemma WithTrueDigest(t: PK.Trust, ids: PK.Ids)
    requires PK.Covers(ids, t.verify)
    ensures TrustTextWith(t, ids, AD.Hex(AD.Digest(PK.OrElse(t.anchors, [])))) == PK.TrustText(t, ids)
  {
    hide PK.PinsText, PK.RevText, PK.CallbackText, PK.Mode, AD.Digest, AD.Hex, T.Numeral;
  }

  // ---------------------------------------------------------------- it never drifts

  lemma ListKept(s: State, m: Mem, low: nat, v: Value)
    requires Kept(s, m, low) && Sealed(m, low) && Closed(m) && Private(v, low, m) && ValueOk(v, |m|)
    ensures ListAt(s.mem, Some(v)) == ListAt(m, Some(v))
    ensures v.Ptr? && IsList(m, v.ref) ==> v.ref >= low
    ensures VerifyAt(s.mem, Some(v)) == VerifyAt(m, Some(v))
  {
  }

  lemma {:induction false} LookupIn(names: seq<string>, items: seq<Value>, name: string)
    ensures Lookup(names, items, name).Some? ==> Lookup(names, items, name).value in items
  {
    if names != [] && items != [] {
      LookupIn(names[1..], items[1..], name);
    }
  }

  lemma FieldPrivate(m: Mem, low: nat, r: Ref, name: string)
    requires Sealed(m, low) && Closed(m) && low <= r < |m| && FieldAt(m, r, name).Some?
    ensures Private(FieldAt(m, r, name).value, low, m) && ValueOk(FieldAt(m, r, name).value, |m|)
  {
    assert CellPrivate(m[r], low, m) && CellOk(m[r], m);
    LookupIn(m[r].kind.names, m[r].items, name);
  }

  lemma FieldKept(s: State, m: Mem, low: nat, r: Ref, name: string)
    requires Kept(s, m, low) && Sealed(m, low) && Closed(m) && low <= r < |m|
    ensures FieldAt(s.mem, r, name) == FieldAt(m, r, name)
    ensures ListAt(s.mem, FieldAt(m, r, name)) == ListAt(m, FieldAt(m, r, name))
    ensures VerifyAt(s.mem, FieldAt(m, r, name)) == VerifyAt(m, FieldAt(m, r, name))
    ensures ListAt(m, FieldAt(m, r, name)).Some? ==> low <= FieldAt(m, r, name).value.ref < |m|
  {
    assert s.mem[r] == m[r];
    if FieldAt(m, r, name).Some? {
      FieldPrivate(m, low, r, name);
      ListKept(s, m, low, FieldAt(m, r, name).value);
    }
  }

  lemma AnchorsFieldKept(s: State, m: Mem, low: nat, r: Ref)
    requires Kept(s, m, low) && Sealed(m, low) && Closed(m) && low <= r < |m|
    ensures AnchorListAt(s.mem, FieldAt(s.mem, r, "anchors")) == AnchorListAt(m, FieldAt(m, r, "anchors"))
  {
    FieldKept(s, m, low, r, "anchors");
    var v := FieldAt(m, r, "anchors");
    if ListAt(m, v).Some? {
      AnchorsKept(s, m, low, v.value.ref);
    }
    hide Kept, Sealed, Closed, FieldAt;
  }

  lemma TrustKept(s: State, m: Mem, low: nat, r: Ref)
    requires Kept(s, m, low) && Sealed(m, low) && Closed(m) && low <= r < |m|
    ensures TrustAt(s.mem, r) == TrustAt(m, r)
  {
    FieldKept(s, m, low, r, "mode");
    FieldKept(s, m, low, r, "revocation");
    FieldKept(s, m, low, r, "pins");
    FieldKept(s, m, low, r, "verify");
    AnchorsFieldKept(s, m, low, r);
    hide Kept, Sealed, Closed, FieldAt, AnchorListAt, VerifyAt, ListAt;
  }

  lemma DigestTrue(s: State, m: Mem, low: nat, r: Ref)
    requires Kept(s, m, low) && MemoTrue(s, m, low) && Sealed(m, low) && Closed(m) && low <= r < |m|
    ensures DigestNow(s, r) == AD.Hex(AD.Digest(PK.OrElse(TrustAt(m, r).anchors, [])))
  {
    hide AD.Digest, AD.Hex;
    FieldKept(s, m, low, r, "anchors");
    var v := FieldAt(m, r, "anchors");
    if ListAt(m, v).Some? {
      AnchorsKept(s, m, low, v.value.ref);
      RecomputedKept(s, m, low, v.value.ref);
    }
    hide Kept, Sealed, Closed, FieldAt;
  }

  /** The key computed with the memo is the key, read off the copy as it was taken. */
  lemma KeyIsTrue(site: PK.Input, json: Tree -> Option<string>, s: State, m: Mem, low: nat, trust: Ref, tls: Value)
    requires Kept(s, m, low) && MemoTrue(s, m, low) && Sealed(m, low) && Closed(m) && low <= trust < |m|
    requires Private(tls, low, m) && ValueOk(tls, |m|)
    ensures TrustAt(s.mem, trust) == TrustAt(m, trust)
    ensures PK.Covers(s.ids, TrustAt(m, trust).verify) ==>
              KeyNow(site, json, s, trust, tls) == PK.Key(InputAt(site, json, m, trust, tls), s.ids)
  {
    TrustKept(s, m, low, trust);
    DigestTrue(s, m, low, trust);
    UnfoldKept(s, m, low, tls, 9);
    var t := TrustAt(m, trust);
    if PK.Covers(s.ids, t.verify) {
      WithTrueDigest(t, s.ids);
      hide Kept, MemoTrue, Sealed, Closed, TrustAt, TrustTextWith, PK.TrustText, PK.SiteText, PK.ProxyText, Unfold,
           DigestNow, AD.Digest, AD.Hex, PK.TlsText;
    }
  }

  lemma {:induction false} NumbersStay(s: State, acts: seq<Act>, end: State)
    requires Run(s, acts, end) && PK.Numbered(s.ids)
    ensures PK.Numbered(end.ids) && forall f <- s.ids :: f in end.ids && end.ids[f] == s.ids[f]
    decreases |acts|
  {
    if acts != [] {
      hide PK.Numbered;
      if acts[0].Numbers? {
        PK.AssignKeeps(s.ids, acts[0].verify);
      }
      NumbersStay(Do(s, acts[0]), acts[1..], end);
    }
  }

  /** A client takes its copies of trust and tls options.  From when the key of a URL is first computed,
      at `mid`, it is at any later time the same, whatever the caller does to its own objects, whatever
      digests are memoised and callbacks numbered meanwhile; and it is the key that the options had when
      they were copied. */
  lemma KeyNeverDrifts(
      m: Mem, config: Ref, options: Value, site: PK.Input, json: Tree -> Option<string>,
      start: State, acts: seq<Act>, mid: State, acts': seq<Act>, end: State)
    requires Closed(m) && config < |m| && m[config].Node? && ValueOk(options, |m|)
    requires Copy(m, Ptr(config), 0).Copied? && Copy(Copy(m, Ptr(config), 0).mem, options, 0).Copied?
    requires start.mem == Copy(Copy(m, Ptr(config), 0).mem, options, 0).mem
    requires (forall r <- start.known :: r < |m|) && (forall list <- start.memo :: list < |m|)
    requires PK.Numbered(start.ids) && Run(start, acts, mid) && Run(mid, acts', end)
    requires PK.Covers(mid.ids, TrustAt(mid.mem, Copy(m, Ptr(config), 0).value.ref).verify)
    ensures
      var trust, tls := Copy(m, Ptr(config), 0).value.ref, Copy(Copy(m, Ptr(config), 0).mem, options, 0).value;
      && PK.Covers(end.ids, TrustAt(end.mem, trust).verify)
      && KeyNow(site, json, end, trust, tls) == KeyNow(site, json, mid, trust, tls)
      && PK.Covers(mid.ids, InputAt(site, json, start.mem, trust, tls).trust.verify)
      && KeyNow(site, json, mid, trust, tls) == PK.Key(InputAt(site, json, start.mem, trust, tls), mid.ids)
  {
    var low, m1 := |m|, Copy(m, Ptr(config), 0).mem;
    var trust, tls := Copy(m, Ptr(config), 0).value.ref, Copy(m1, options, 0).value;
    hide Unfold, TrustAt, KeyNow, PK.Key, PK.Numbered, Run;
    CopiesSealed(m, config, options);
    hide Copy, Sealed, Closed;
    StartKept(m, start.mem, start);
    RunKeeps(start, acts, mid, start.mem, low);
    RunKeeps(mid, acts', end, start.mem, low);
    NumbersStay(start, acts, mid);
    NumbersStay(mid, acts', end);
    hide Kept, MemoTrue;
    KeyIsTrue(site, json, mid, start.mem, low, trust, tls);
    KeyIsTrue(site, json, end, start.mem, low, trust, tls);
    KeyWithMore(InputAt(site, json, start.mem, trust, tls), mid.ids, end.ids);
  }

  lemma KeyWithMore(i: PK.Input, ids: PK.Ids, more: PK.Ids)
    requires PK.Covers(ids, i.trust.verify) && forall f <- ids :: f in more && more[f] == ids[f]
    ensures PK.Covers(more, i.trust.verify) && PK.Key(i, more) == PK.Key(i, ids)
  {
  }

  lemma CopiesSealed(m: Mem, config: Ref, options: Value)
    requires Closed(m) && config < |m| && m[config].Node? && ValueOk(options, |m|)
    requires Copy(m, Ptr(config), 0).Copied? && Copy(Copy(m, Ptr(config), 0).mem, options, 0).Copied?
    ensures
      var Copied(t, m1) := Copy(m, Ptr(config), 0);
      var Copied(l, m2) := Copy(m1, options, 0);
      && m <= m2 && Closed(m2) && Sealed(m2, |m|)
      && t.Ptr? && |m| <= t.ref < |m2| && Private(l, |m|, m2) && ValueOk(l, |m2|)
  {
    var Copied(t, m1) := Copy(m, Ptr(config), 0);
    var Copied(l, m2) := Copy(m1, options, 0);
    CopyGood(m, Ptr(config), 0);
    CopyGood(m1, options, 0);
    CopyExtends(m, Ptr(config), 0);
    assert t == Ptr(|m1| - 1) by { CopyAllExtends(m, m[config].items, 1); }
    assert |m1| > |m| by { CopyAllExtends(m, m[config].items, 1); }
    hide Copy;
    SealedTogether(m1, m2, |m|);
    PrivateBelow(l, |m|, |m1|, m2);
  }
}
