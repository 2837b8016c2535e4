/** src/transport.js: when the platform's fetch may serve a request, and who closes what when a
    connection is being opened. */
module Transport {
  import opened Wrappers
  import opened Text
  import opened Sorting
  import opened PoolKey

  // ---------------------------------------------------------------- delegation

  datatype Obstacle = ForceTunnel | HasProxy | TrustMode | Revocation | TlsOptions

  /** nativeFetchCanServe: the first reason against delegation, if any. */
  function NativeFetchCanServe(i: Input, forceTunnel: bool): Result<(), Obstacle> {
    if forceTunnel then Err(ForceTunnel)
    else if i.proxy.Some? then Err(HasProxy)
    else if Mode(i.trust) != "system" then Err(TrustMode)
    else if i.trust.revocation.Some? && i.trust.revocation.value != "staple" then Err(Revocation)
    else if i.tls.Some? then Err(TlsOptions)
    else Ok(())
  }

  /** The platform's fetch serves a request exactly when nothing was asked for that it cannot do: no tunnel,
      no proxy, no trust but the system's with the default revocation policy, no tls options. */
  lemma ServesExactlyWhen(i: Input, forceTunnel: bool)
    ensures NativeFetchCanServe(i, forceTunnel).Ok? <==>
              && !forceTunnel && i.proxy.None?
              && (i.trust.mode.None? || i.trust.mode.value == "system")
              && (i.trust.revocation.None? || i.trust.revocation.value == "staple")
              && i.tls.None?
  {
  }

  predicate EndsWith(s: string, end: string) {
    |end| <= |s| && s[|s| - |end|..] == end
  }

  const NATIVE_END := "|direct|system|rev=staple|-"
  const NATIVE_TRUST := "|direct|system|rev=staple"

  /** A configuration text carries the end of a delegatable key inside it. */
  predicate Carries(t: Trust) {
    var pins := Sort(OrElse(t.pins, []));
    if Mode(t) == "none" then pins != [] && EndsWith(pins[|pins| - 1], NATIVE_TRUST)
    else if Mode(t) == "custom" then false
    else if Mode(t) in ["system", "anchors", "pinned"] then EndsWith(OrElse(t.revocation, ""), NATIVE_TRUST)
    else EndsWith(Mode(t), NATIVE_TRUST)
  }

  lemma EndsBehind(a: string, c: char, b: string, end: string)
    requires c !in end
    ensures EndsWith(a + [c] + b, end) <==> EndsWith(b, end)
  {
    var s := a + [c] + b;
    if |end| <= |b| {
      assert s[|s| - |end|..] == b[|b| - |end|..];
    } else if |end| <= |s| {
      assert s[|s| - |end|..][|end| - |b| - 1] == c;
    }
  }

  /** The end has one c of its own, with `front` before it and `back` behind it. */
  lemma EndsAround(a: string, c: char, b: string, front: string, back: string)
    requires c !in front && c !in back
    ensures EndsWith(a + [c] + b, front + [c] + back) <==>
              EndsWith(b, front + [c] + back) || (b == back && EndsWith(a, front))
  {
    var s, end := a + [c] + b, front + [c] + back;
    if |end| <= |b| {
      assert s[|s| - |end|..] == b[|b| - |end|..];
    } else if |end| <= |s| {
      var head := a[|s| - |end|..];
      assert s[|s| - |end|..] == head + [c] + b;
      if head + [c] + b == end {
        CutFirstOrLast(head, b, front, back, c);
      }
    }
  }

  lemma CutFirstOrLast(a: string, b: string, front: string, back: string, c: char)
    requires c !in front && c !in back && a + [c] + b == front + [c] + back
    ensures a == front && b == back
  {
    var s := a + [c] + b;
    assert s[|a|] == c;
    assert forall k | 0 <= k < |front| :: s[k] == front[k] && front[k] in front;
    assert forall k | |front| < k < |s| :: s[k] == back[k - |front| - 1] && back[k - |front| - 1] in back;
    assert a == s[..|a|] && front == s[..|front|] && b == s[|a| + 1..] && back == s[|front| + 1..];
  }

  lemma PlainEndless(s: string, end: string)
    requires Plain(s) && '|' in end
    ensures !EndsWith(s, end)
  {
  }

  // The key cut at its last separator of the kind that matters in each mode.

  function Front(i: Input): string {
    SiteText(i) + "|" + ProxyText(i.proxy)
  }

  lemma ProxyEnd(i: Input)
    ensures EndsWith(Front(i), "|direct") <==> i.proxy.None?
  {
    hide SiteText, Numeral;
    match i.proxy
    case None =>
      assert Front(i)[|Front(i)| - 7..] == "|direct";
    case Some(p) =>
      var a := SiteText(i) + "|" + p.protocol + "://" + UserAt(p) + p.hostname;
      assert Front(i) == a + [':'] + Numeral(p.port, 10);
      EndsBehind(a, ':', Numeral(p.port, 10), "|direct");
      NotADigit('|', p.port, 10);
      PlainEndless(Numeral(p.port, 10), "|direct");
  }

  const REV: string := "|direct|system|rev"
  const SYS: string := "|direct|system"

  /** The trust modes with a revocation policy: what stands before `|rev=`. */
  function BeforeRev(t: Trust): string
    requires Mode(t) in ["system", "anchors", "pinned"]
  {
    if Mode(t) == "system" then "system"
    else if Mode(t) == "anchors" then "anchors:" + CountAndDigest(OrElse(t.anchors, []))
    else "pinned|" + PinsText(t) + "|" + AnchorsText(t)
  }

  lemma BeforeRevEnd(i: Input)
    requires Mode(i.trust) in ["system", "anchors", "pinned"]
    ensures EndsWith(Front(i) + "|" + BeforeRev(i.trust), SYS) <==> i.proxy.None? && Mode(i.trust) == "system"
  {
    hide Front, PinsText, CountAndDigest, Mode, EndsWith, OrElse;
    var t, all := i.trust, Front(i) + "|" + BeforeRev(i.trust);
    var count := CountAndDigest(OrElse(t.anchors, []));
    CountAndDigestTell(OrElse(t.anchors, []), []);
    if Mode(t) == "system" {
      assert SYS == "|direct" + "|system";
      assert all == Front(i) + "|system";
      EndsBoth(Front(i), "|system", "|direct");
      ProxyEnd(i);
    } else if Mode(t) == "anchors" {
      var a := Front(i) + "|anchors";
      assert all == a + [':'] + count;
      EndsBehind(a, ':', count, SYS);
      PlainEndless(count, SYS);
    } else {
      PinnedEnd(i);
    }
  }

  lemma PinnedEnd(i: Input)
    ensures !EndsWith(Front(i) + "|" + ("pinned|" + PinsText(i.trust) + "|" + AnchorsText(i.trust)), SYS)
  {
    hide Front, PinsText, CountAndDigest, EndsWith;
    var t, front := i.trust, Front(i) + "|pinned|" + PinsText(i.trust) + "|anchors";
    var b := match t.anchors case None => "system" case Some(anchors) => CountAndDigest(anchors);
    if t.anchors.Some? {
      CountAndDigestTell(t.anchors.value, []);
    }
    assert Front(i) + "|" + ("pinned|" + PinsText(t) + "|" + AnchorsText(t)) == front + ['='] + b;
    EndsBehind(front, '=', b, SYS);
    PlainEndless(b, SYS);
  }

  lemma EndsBoth(a: string, same: string, front: string)
    ensures EndsWith(a + same, front + same) <==> EndsWith(a, front)
  {
    var s, end := a + same, front + same;
    if |end| <= |s| {
      assert s[|s| - |end|..] == a[|a| - |front|..] + same;
      if s[|s| - |end|..] == end {
        SameLengthParts(a[|a| - |front|..], same, front, same);
      }
    }
  }

  lemma RevEnd(i: Input, ids: Ids)
    requires Mode(i.trust) in ["system", "anchors", "pinned"] && Covers(ids, i.trust.verify)
    ensures EndsWith(Front(i) + "|" + TrustText(i.trust, ids), NATIVE_TRUST) <==>
              || EndsWith(OrElse(i.trust.revocation, "staple"), NATIVE_TRUST)
              || (OrElse(i.trust.revocation, "staple") == "staple" && i.proxy.None? && Mode(i.trust) == "system")
  {
    hide Front, BeforeRev, Mode, EndsWith, OrElse, NATIVE_TRUST, REV, SYS;
    var t, rev := i.trust, OrElse(i.trust.revocation, "staple");
    var a := Front(i) + "|" + BeforeRev(t) + "|rev";
    assert Front(i) + "|" + TrustText(t, ids) == a + ['='] + rev by { RevShape(i, ids); }
    TheEnd();
    EndsAround(a, '=', rev, REV, "staple");
    EndsBoth(Front(i) + "|" + BeforeRev(t), "|rev", SYS);
    BeforeRevEnd(i);
  }

  lemma TheEnd()
    ensures NATIVE_TRUST == REV + ['='] + "staple" && REV == SYS + "|rev" && '=' !in REV
  {
  }

  lemma RevShape(i: Input, ids: Ids)
    requires Mode(i.trust) in ["system", "anchors", "pinned"] && Covers(ids, i.trust.verify)
    ensures Front(i) + "|" + TrustText(i.trust, ids)
         == Front(i) + "|" + BeforeRev(i.trust) + "|rev" + ['='] + OrElse(i.trust.revocation, "staple")
  {
    hide Front, PinsText, CountAndDigest, Mode, AnchorsText, OrElse;
  }

  lemma {:induction false} JoinEnd(parts: seq<string>)
    ensures EndsWith(Join(parts, ','), NATIVE_TRUST) <==> parts != [] && EndsWith(parts[|parts| - 1], NATIVE_TRUST)
  {
    if |parts| > 1 {
      EndsBehind(parts[0], ',', Join(parts[1..], ','), NATIVE_TRUST);
      JoinEnd(parts[1..]);
    }
  }

  lemma PinsEnd(i: Input, ids: Ids)
    requires Mode(i.trust) == "none" && Covers(ids, i.trust.verify)
    ensures EndsWith(Front(i) + "|" + TrustText(i.trust, ids), NATIVE_TRUST) <==> Carries(i.trust)
  {
    hide Front, Mode, Sort, Join;
    var pins := Sort(OrElse(i.trust.pins, []));
    var a := Front(i) + "|none|pins";
    assert Front(i) + "|" + TrustText(i.trust, ids) == a + ['='] + Join(pins, ',');
    assert NATIVE_TRUST == REV + ['='] + "staple";
    EndsAround(a, '=', Join(pins, ','), REV, "staple");
    assert a[|a| - 1] == 's';
    assert !EndsWith(a, REV);
    JoinEnd(pins);
  }

  lemma OtherEnd(i: Input, ids: Ids)
    requires Mode(i.trust) !in ["none", "system", "anchors", "pinned"] && Covers(ids, i.trust.verify)
    ensures EndsWith(Front(i) + "|" + TrustText(i.trust, ids), NATIVE_TRUST) <==> Carries(i.trust)
  {
    hide Front, Mode, CallbackText;
    var t := i.trust;
    if Mode(t) == "custom" {
      assert Front(i) + "|" + TrustText(t, ids) == Front(i) + "|custom" + [':'] + CallbackText(ids, t.verify);
      EndsBehind(Front(i) + "|custom", ':', CallbackText(ids, t.verify), NATIVE_TRUST);
      CallbackPlain(ids, t.verify);
      PlainEndless(CallbackText(ids, t.verify), NATIVE_TRUST);
    } else {
      assert Front(i) + "|" + TrustText(t, ids) == Front(i) + "|unknown" + [':'] + Mode(t);
      EndsBehind(Front(i) + "|unknown", ':', Mode(t), NATIVE_TRUST);
    }
  }

  /** tls options, when there are any, are written as a JSON array. */
  predicate Json(tls: Option<string>) {
    tls.Some? ==> EndsWith(tls.value, "]")
  }

  lemma TlsEnd(i: Input, ids: Ids)
    requires Covers(ids, i.trust.verify) && Json(i.tls)
    ensures EndsWith(Key(i, ids), NATIVE_END) <==>
              i.tls.None? && EndsWith(Front(i) + "|" + TrustText(i.trust, ids), NATIVE_TRUST)
  {
    hide Front, TrustText;
    assert Key(i, ids) == Front(i) + "|" + TrustText(i.trust, ids) + "|" + TlsText(i) by { KeyFront(i, ids); }
    match i.tls
    case None =>
      assert NATIVE_END == NATIVE_TRUST + "|-";
      assert Key(i, ids) == Front(i) + "|" + TrustText(i.trust, ids) + "|-";
      EndsBoth(Front(i) + "|" + TrustText(i.trust, ids), "|-", NATIVE_TRUST);
    case Some(json) =>
      assert Key(i, ids)[|Key(i, ids)| - 1] == ']';
  }

  lemma KeyFront(i: Input, ids: Ids)
    requires Covers(ids, i.trust.verify)
    ensures Key(i, ids) == Front(i) + "|" + TrustText(i.trust, ids) + "|" + TlsText(i)
  {
    hide SiteText, ProxyText, TrustText, TlsText;
  }

  /** The key of a request ends as a delegatable one does exactly when the request is delegatable, or
      a configuration text carries that very end inside it. */
  lemma DelegationAgrees(i: Input, ids: Ids)
    requires Covers(ids, i.trust.verify) && Json(i.tls)
    ensures EndsWith(Key(i, ids), NATIVE_END) <==>
              NativeFetchCanServe(i, false).Ok? || (i.tls.None? && Carries(i.trust))
  {
    hide Front, TrustText, Key, EndsWith, Mode, Sort;
    TlsEnd(i, ids);
    if Mode(i.trust) in ["system", "anchors", "pinned"] {
      RevEnd(i, ids);
      EmptyEndless();
    } else if Mode(i.trust) == "none" {
      PinsEnd(i, ids);
    } else {
      OtherEnd(i, ids);
    }
  }

  lemma EmptyEndless()
    ensures !EndsWith("", NATIVE_TRUST) && !EndsWith("staple", NATIVE_TRUST)
  {
  }

  /** On proper trust configurations the two decisions are one. */
  lemma DelegationIsInTheKey(i: Input, ids: Ids)
    requires Covers(ids, i.trust.verify) && Json(i.tls) && ProperTrust(i.trust)
    ensures EndsWith(Key(i, ids), NATIVE_END) <==> NativeFetchCanServe(i, false).Ok?
  {
    hide Key, Mode, EndsWith;
    DelegationAgrees(i, ids);
    var t, pins := i.trust, Sort(OrElse(i.trust.pins, []));
    SortProper(OrElse(t.pins, []));
    if pins != [] {
      PlainEndless(pins[|pins| - 1], NATIVE_TRUST);
    }
    PlainEndless(OrElse(t.revocation, ""), NATIVE_TRUST);
    PlainEndless(Mode(t), NATIVE_TRUST);
  }

  /** Off them they are not: an unknown revocation policy may look like a delegatable request. */
  lemma RevocationThatCarries(ids: Ids)
    ensures
      var t := Trust(None, Some("x|direct|system|rev=staple"), None, None, NotAFunction);
      var i := Input("https:", "example.com", 443, None, t, None);
      EndsWith(Key(i, ids), NATIVE_END) && NativeFetchCanServe(i, false) == Err(Revocation)
  {
    var t := Trust(None, Some("x|direct|system|rev=staple"), None, None, NotAFunction);
    var i := Input("https:", "example.com", 443, None, t, None);
    assert EndsWith("x|direct|system|rev=staple", NATIVE_TRUST);
    hide Key, EndsWith;
    DelegationAgrees(i, ids);
  }
}
