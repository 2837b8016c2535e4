/** `poolKey` of src/pool.js: the string that decides which requests may share a connection, a ticket
    or an HTTP/2 session. */
module PoolKey {
  import opened Wrappers
  import opened Text
  import opened Sorting
  import AD = AnchorDigest

  type FnId = nat

  /** What stands in trust.verify. */
  datatype Callback = NotAFunction | Callback(fn: FnId)

  datatype Proxy = Proxy(protocol: string, username: string, password: string, hostname: string, port: nat)

  datatype Trust = Trust(
    mode: Option<string>,
    revocation: Option<string>,
    pins: Option<seq<string>>,
    anchors: Option<seq<AD.Anchor>>,
    verify: Callback)

  /** `tls` is None for absent or empty options, and otherwise their sorted entries as JSON. */
  datatype Input = Input(
    scheme: string,
    hostname: string,
    port: nat,
    proxy: Option<Proxy>,
    trust: Trust,
    tls: Option<string>)

  // ---------------------------------------------------------------- numbering callbacks

  /** The number each callback was given. */
  type Ids = map<FnId, nat>

  ghost predicate Numbered(ids: Ids) {
    && (forall f <- ids :: 1 <= ids[f] <= |ids|)
    && (forall f, g | f in ids && g in ids :: ids[f] == ids[g] ==> f == g)
  }

  function Assign(ids: Ids, verify: Callback): Ids {
    if verify.NotAFunction? || verify.fn in ids then ids else ids[verify.fn := |ids| + 1]
  }

  predicate Covers(ids: Ids, verify: Callback) {
    verify.Callback? ==> verify.fn in ids
  }

  function CallbackText(ids: Ids, verify: Callback): string
    requires Covers(ids, verify)
  {
    match verify
    case NotAFunction => "invalid"
    case Callback(fn) => Numeral(ids[fn], 10)
  }

  lemma AssignKeeps(ids: Ids, verify: Callback)
    requires Numbered(ids)
    ensures Numbered(Assign(ids, verify)) && Covers(Assign(ids, verify), verify)
    ensures forall f <- ids :: f in Assign(ids, verify) && Assign(ids, verify)[f] == ids[f]
  {
  }

  lemma CallbackTells(ids: Ids, v: Callback, w: Callback)
    requires Numbered(ids) && Covers(ids, v) && Covers(ids, w)
    ensures CallbackText(ids, v) == CallbackText(ids, w) <==> v == w
  {
    if v.Callback? { NumeralNotInvalid(ids[v.fn]); }
    if w.Callback? { NumeralNotInvalid(ids[w.fn]); }
    if v.Callback? && w.Callback? && CallbackText(ids, v) == CallbackText(ids, w) {
      NumeralInjective(ids[v.fn], ids[w.fn], 10);
    }
  }

  lemma NumeralNotInvalid(n: nat)
    ensures Numeral(n, 10) != "invalid"
  {
    NotADigit('i', n, 10);
    assert "invalid"[0] == 'i';
  }

  function AfterCalls(calls: seq<Callback>): Ids {
    if calls == [] then map[] else Assign(AfterCalls(calls[..|calls| - 1]), calls[|calls| - 1])
  }

  lemma {:induction false} AfterCallsNumbered(calls: seq<Callback>, i: nat)
    requires i <= |calls|
    ensures Numbered(AfterCalls(calls))
    ensures forall v <- calls :: Covers(AfterCalls(calls), v)
    ensures forall f <- AfterCalls(calls[..i]) ::
              f in AfterCalls(calls) && AfterCalls(calls)[f] == AfterCalls(calls[..i])[f]
  {
    if i == |calls| {
      assert calls[..i] == calls;
    }
    if calls != [] {
      var front := calls[..|calls| - 1];
      AfterCallsNumbered(front, if i == |calls| then 0 else i);
      AssignKeeps(AfterCalls(front), calls[|calls| - 1]);
      if i < |calls| {
        assert front[..i] == calls[..i];
      }
      assert forall v <- calls :: v in front || v == calls[|calls| - 1];
    }
  }

  /** What the call at `i` answers, in any sequence of calls from an empty table. */
  function Answer(calls: seq<Callback>, i: nat): string
    requires i < |calls|
    requires Covers(AfterCalls(calls[..i + 1]), calls[i])
  {
    CallbackText(AfterCalls(calls[..i + 1]), calls[i])
  }

  /** Two calls answer the same exactly when they asked about the same callback, however many calls
      about whatever callbacks are made before, between and after. */
  lemma AnswersTell(calls: seq<Callback>, i: nat, j: nat)
    requires i < |calls| && j < |calls|
    ensures Covers(AfterCalls(calls[..i + 1]), calls[i]) && Covers(AfterCalls(calls[..j + 1]), calls[j])
    ensures Answer(calls, i) == Answer(calls, j) <==> calls[i] == calls[j]
  {
    hide AfterCalls, Numbered;
    AnswerStands(calls, i);
    AnswerStands(calls, j);
    AfterCallsNumbered(calls, 0);
    CallbackTells(AfterCalls(calls), calls[i], calls[j]);
  }

  /** The number a callback got is the one it has after all the calls. */
  lemma AnswerStands(calls: seq<Callback>, i: nat)
    requires i < |calls|
    ensures Covers(AfterCalls(calls[..i + 1]), calls[i]) && Covers(AfterCalls(calls), calls[i])
    ensures Answer(calls, i) == CallbackText(AfterCalls(calls), calls[i])
  {
    hide AfterCalls, Numbered;
    assert calls[i] == calls[..i + 1][i];
    AfterCallsNumbered(calls[..i + 1], 0);
    AfterCallsNumbered(calls, i + 1);
  }

  /** customIds and customSeq. */
  class CallbackNumbers {
    var ids: Ids
    var last: nat

    ghost predicate Valid()
      reads this
    {
      Numbered(ids) && last == |ids|
    }

    constructor ()
      ensures Valid() && ids == map[]
    {
      ids, last := map[], 0;
    }

    method Of(verify: Callback) returns (out: string)
      requires Valid()
      modifies this
      ensures Valid() && ids == Assign(old(ids), verify)
      ensures Covers(ids, verify) && out == CallbackText(ids, verify)
    {
      AssignKeeps(ids, verify);
      match verify
      case NotAFunction =>
        out := "invalid";
      case Callback(fn) =>
        if fn !in ids {
          last := last + 1;
          ids := ids[fn := last];
        }
        out := Numeral(ids[fn], 10);
    }
  }

  // ---------------------------------------------------------------- the key

  function OrElse<T>(o: Option<T>, default: T): T {
    match o case None => default case Some(v) => v
  }

  function RevText(t: Trust): string {
    "rev=" + OrElse(t.revocation, "staple")
  }

  function PinsText(t: Trust): string {
    "pins=" + Join(Sort(OrElse(t.pins, [])), ',')
  }

  function CountAndDigest(anchors: seq<AD.Anchor>): string {
    Numeral(|anchors|, 10) + ":" + AD.Hex(AD.Digest(anchors))
  }

  function AnchorsText(t: Trust): string {
    match t.anchors
    case None => "anchors=system"
    case Some(anchors) => "anchors=" + CountAndDigest(anchors)
  }

  function Mode(t: Trust): string {
    OrElse(t.mode, "system")
  }

  function TrustText(t: Trust, ids: Ids): string
    requires Covers(ids, t.verify)
  {
    if Mode(t) == "none" then "none|" + PinsText(t)
    else if Mode(t) == "custom" then "custom:" + CallbackText(ids, t.verify)
    else if Mode(t) == "system" then "system|" + RevText(t)
    else if Mode(t) == "anchors" then "anchors:" + CountAndDigest(OrElse(t.anchors, [])) + "|" + RevText(t)
    else if Mode(t) == "pinned" then "pinned|" + PinsText(t) + "|" + AnchorsText(t) + "|" + RevText(t)
    else "unknown:" + Mode(t)
  }

  function ProxyText(proxy: Option<Proxy>): string {
    match proxy
    case None => "direct"
    case Some(p) =>
      p.protocol + "://" + (if p.username == "" then "" else p.username + "@") + p.hostname + ":" + Numeral(p.port, 10)
  }

  function SiteText(i: Input): string {
    i.scheme + "//" + i.hostname + ":" + Numeral(i.port, 10)
  }

  function TlsText(i: Input): string {
    OrElse(i.tls, "-")
  }

  function Key(i: Input, ids: Ids): string
    requires Covers(ids, i.trust.verify)
  {
    SiteText(i) + "|" + ProxyText(i.proxy) + "|" + TrustText(i.trust, ids) + "|" + TlsText(i)
  }

  // ---------------------------------------------------------------- what the key is to tell

  datatype Policy =
    | Pins(pins: multiset<string>)
    | Custom(verify: Callback)
    | System(revocation: string)
    | Anchors(count: nat, digest: AD.Word, revocation: string)
    | Pinned(pins: multiset<string>, anchors: Option<(nat, AD.Word)>, revocation: string)
    | Unknown(mode: string)

  function AnchorsOf(t: Trust): Option<(nat, AD.Word)> {
    if t.anchors.None? then None else Some((|t.anchors.value|, AD.Digest(t.anchors.value)))
  }

  /** The fields of a trust configuration that its mode reads. */
  function PolicyOf(t: Trust): Policy {
    var pins, rev := multiset(OrElse(t.pins, [])), OrElse(t.revocation, "staple");
    if Mode(t) == "none" then Pins(pins)
    else if Mode(t) == "custom" then Custom(t.verify)
    else if Mode(t) == "system" then System(rev)
    else if Mode(t) == "anchors" then Anchors(|OrElse(t.anchors, [])|, AD.Digest(OrElse(t.anchors, [])), rev)
    else if Mode(t) == "pinned" then
      Pinned(pins, AnchorsOf(t), rev)
    else Unknown(Mode(t))
  }

  /** Two requests with equal meanings may share a connection. */
  datatype Meaning = Meaning(
    scheme: string, hostname: string, port: nat, proxy: Option<Proxy>, policy: Policy, tls: Option<string>)

  function MeaningOf(i: Input): Meaning {
    Meaning(i.scheme, i.hostname, i.port,
            if i.proxy.None? then None else Some(i.proxy.value.(password := "")),
            PolicyOf(i.trust), i.tls)
  }

  predicate Plain(s: string) {
    '|' !in s
  }

  predicate ProperPin(pin: string) {
    pin != "" && ',' !in pin && '|' !in pin
  }

  predicate ProperProxy(p: Proxy) {
    && ':' !in p.protocol && Plain(p.protocol) && Plain(p.username) && Plain(p.hostname) && '@' !in p.hostname
  }

  predicate ProperTrust(t: Trust) {
    && Plain(OrElse(t.revocation, "")) && Plain(Mode(t))
    && forall k | 0 <= k < |OrElse(t.pins, [])| :: ProperPin(OrElse(t.pins, [])[k])
  }

  /** No separator where it could be taken for one; what well-formed URLs, documented revocation
      policies and SHA-256 pins always satisfy. */
  predicate Proper(i: Input) {
    && (i.scheme == "http:" || i.scheme == "https:")
    && Plain(i.hostname)
    && (i.proxy.Some? ==> ProperProxy(i.proxy.value))
    && ProperTrust(i.trust)
    && (i.tls.Some? ==> i.tls.value != "-")
  }

  // ---------------------------------------------------------------- the key tells it

  lemma PinsTell(t: Trust, u: Trust)
    requires forall k | 0 <= k < |OrElse(t.pins, [])| :: ProperPin(OrElse(t.pins, [])[k])
    requires forall k | 0 <= k < |OrElse(u.pins, [])| :: ProperPin(OrElse(u.pins, [])[k])
    ensures PinsText(t) == PinsText(u) <==> multiset(OrElse(t.pins, [])) == multiset(OrElse(u.pins, []))
    ensures Plain(PinsText(t))
  {
    var p, q := OrElse(t.pins, []), OrElse(u.pins, []);
    SortTells(p, q);
    SortProper(p);
    SortProper(q);
    if PinsText(t) == PinsText(u) {
      SameLengthParts("pins=", Join(Sort(p), ','), "pins=", Join(Sort(q), ','));
      JoinInjective(Sort(p), Sort(q), ',');
    }
    JoinFree(Sort(p), ',', '|');
  }

  lemma SortProper(p: seq<string>)
    requires forall k | 0 <= k < |p| :: ProperPin(p[k])
    ensures forall k | 0 <= k < |Sort(p)| :: ProperPin(Sort(p)[k])
  {
    SortKeeps(p);
    forall k | 0 <= k < |Sort(p)| ensures ProperPin(Sort(p)[k]) {
      assert Sort(p)[k] in multiset(p);
    }
  }

  lemma CountAndDigestTell(a: seq<AD.Anchor>, b: seq<AD.Anchor>)
    ensures CountAndDigest(a) == CountAndDigest(b) <==> |a| == |b| && AD.Digest(a) == AD.Digest(b)
    ensures Plain(CountAndDigest(a))
  {
    hide AD.Digest, Numeral;
    NotADigit(':', |a|, 10);
    NotADigit(':', |b|, 10);
    NotADigit('|', |a|, 10);
    NotADigit('|', AD.Digest(a), 16);
    if CountAndDigest(a) == CountAndDigest(b) {
      CutFirst(Numeral(|a|, 10), AD.Hex(AD.Digest(a)), Numeral(|b|, 10), AD.Hex(AD.Digest(b)), ':');
      NumeralInjective(|a|, |b|, 10);
      AD.HexInjective(AD.Digest(a), AD.Digest(b));
    }
  }

  /** The '|'-free pieces of the trust part.  The first tells how many follow. */
  function TrustPieces(t: Trust, ids: Ids): seq<string>
    requires Covers(ids, t.verify)
  {
    if Mode(t) == "none" then ["none", PinsText(t)]
    else if Mode(t) == "custom" then ["custom:" + CallbackText(ids, t.verify)]
    else if Mode(t) == "system" then ["system", RevText(t)]
    else if Mode(t) == "anchors" then ["anchors:" + CountAndDigest(OrElse(t.anchors, [])), RevText(t)]
    else if Mode(t) == "pinned" then ["pinned", PinsText(t), AnchorsText(t), RevText(t)]
    else ["unknown:" + Mode(t)]
  }

  /** Pieces, each with a bar behind it, and then the rest. */
  function Barred(pieces: seq<string>, rest: string): string {
    if pieces == [] then rest else pieces[0] + ['|'] + Barred(pieces[1..], rest)
  }

  ghost predicate AllPlain(pieces: seq<string>) {
    forall k | 0 <= k < |pieces| :: Plain(pieces[k])
  }

  lemma {:induction false} BarredTells(xs: seq<string>, ys: seq<string>, rest: string, rest': string)
    requires AllPlain(xs) && AllPlain(ys) && |xs| == |ys| && Barred(xs, rest) == Barred(ys, rest')
    ensures xs == ys && rest == rest'
  {
    if xs != [] {
      CutFirst(xs[0], Barred(xs[1..], rest), ys[0], Barred(ys[1..], rest'), '|');
      BarredTells(xs[1..], ys[1..], rest, rest');
      assert xs == [xs[0]] + xs[1..] && ys == [ys[0]] + ys[1..];
    }
  }

  lemma {:induction false} BarredHead(xs: seq<string>, ys: seq<string>, rest: string, rest': string)
    requires xs != [] && ys != [] && Plain(xs[0]) && Plain(ys[0]) && Barred(xs, rest) == Barred(ys, rest')
    ensures xs[0] == ys[0] && Barred(xs[1..], rest) == Barred(ys[1..], rest')
  {
    CutFirst(xs[0], Barred(xs[1..], rest), ys[0], Barred(ys[1..], rest'), '|');
  }

  lemma TrustShape(t: Trust, ids: Ids, rest: string)
    requires Covers(ids, t.verify)
    ensures TrustText(t, ids) + "|" + rest == Barred(TrustPieces(t, ids), rest)
  {
    hide PinsText, RevText, AnchorsText, CountAndDigest, CallbackText, Mode;
    BarredOf(TrustPieces(t, ids), rest);
  }

  lemma BarredOf(xs: seq<string>, rest: string)
    ensures |xs| == 1 ==> Barred(xs, rest) == xs[0] + "|" + rest
    ensures |xs| == 2 ==> Barred(xs, rest) == xs[0] + "|" + xs[1] + "|" + rest
    ensures |xs| == 4 ==> Barred(xs, rest) == xs[0] + "|" + xs[1] + "|" + xs[2] + "|" + xs[3] + "|" + rest
  {
    if |xs| == 2 {
      assert Barred(xs, rest) == xs[0] + "|" + Barred(xs[1..], rest);
    } else if |xs| == 4 {
      assert Barred(xs, rest) == xs[0] + "|" + (xs[1] + "|" + Barred(xs[1..][1..], rest));
      assert xs[1..][1..] == [xs[2], xs[3]];
      assert Barred([xs[2], xs[3]], rest) == xs[2] + "|" + (xs[3] + "|" + rest);
    }
  }

  /** The head of the trust part tells the mode. */
  lemma ModeTold(t: Trust, u: Trust, ids: Ids)
    requires Covers(ids, t.verify) && Covers(ids, u.verify)
    requires TrustPieces(t, ids)[0] == TrustPieces(u, ids)[0]
    ensures Mode(t) == Mode(u)
  {
    hide PinsText, RevText, AnchorsText, CountAndDigest, CallbackText, Mode;
    var x, y := TrustPieces(t, ids)[0], TrustPieces(u, ids)[0];
    assert x[0] == y[0];
    if x[0] == 'u' {
      SameLengthParts("unknown:", Mode(t), "unknown:", Mode(u));
    }
  }

  lemma RevTells(t: Trust, u: Trust)
    requires Plain(OrElse(t.revocation, ""))
    ensures RevText(t) == RevText(u) <==> OrElse(t.revocation, "staple") == OrElse(u.revocation, "staple")
    ensures Plain(RevText(t))
  {
    if RevText(t) == RevText(u) {
      SameLengthParts("rev=", OrElse(t.revocation, "staple"), "rev=", OrElse(u.revocation, "staple"));
    }
  }

  lemma AnchorsTell(t: Trust, u: Trust)
    ensures AnchorsText(t) == AnchorsText(u) <==> AnchorsOf(t) == AnchorsOf(u)
    ensures Plain(AnchorsText(t))
  {
    hide CountAndDigest, AD.Digest;
    var a, b := OrElse(t.anchors, []), OrElse(u.anchors, []);
    CountAndDigestTell(a, b);
    CountNotSystem(a);
    CountNotSystem(b);
    if AnchorsText(t) == AnchorsText(u) {
      SameLengthParts("anchors=", if t.anchors.None? then "system" else CountAndDigest(a),
                      "anchors=", if u.anchors.None? then "system" else CountAndDigest(b));
    }
  }

  lemma CountNotSystem(a: seq<AD.Anchor>)
    ensures CountAndDigest(a) != "system"
  {
    assert ':' in CountAndDigest(a);
  }

  lemma CallbackPlain(ids: Ids, v: Callback)
    requires Covers(ids, v)
    ensures Plain(CallbackText(ids, v))
  {
    if v.Callback? {
      NotADigit('|', ids[v.fn], 10);
    }
  }

  lemma PiecesPlain(t: Trust, ids: Ids)
    requires Covers(ids, t.verify) && ProperTrust(t)
    ensures AllPlain(TrustPieces(t, ids))
  {
    PinsTell(t, t);
    RevTells(t, t);
    AnchorsTell(t, t);
    CountAndDigestTell(OrElse(t.anchors, []), []);
    CallbackPlain(ids, t.verify);
    hide PinsText, RevText, AnchorsText, CountAndDigest, CallbackText, Mode, ProperPin;
  }

  lemma PiecesAgree(t: Trust, u: Trust, ids: Ids)
    requires Covers(ids, t.verify) && Covers(ids, u.verify)
    ensures TrustPieces(t, ids) == TrustPieces(u, ids) <==>
              && Mode(t) == Mode(u)
              && (Mode(t) in ["none", "pinned"] ==> PinsText(t) == PinsText(u))
              && (Mode(t) in ["system", "anchors", "pinned"] ==> RevText(t) == RevText(u))
              && (Mode(t) == "pinned" ==> AnchorsText(t) == AnchorsText(u))
              && (Mode(t) == "anchors" ==>
                    CountAndDigest(OrElse(t.anchors, [])) == CountAndDigest(OrElse(u.anchors, [])))
              && (Mode(t) == "custom" ==> CallbackText(ids, t.verify) == CallbackText(ids, u.verify))
  {
    hide PinsText, RevText, AnchorsText, CountAndDigest, CallbackText, Mode;
    var x, y := TrustPieces(t, ids), TrustPieces(u, ids);
    if x == y {
      ModeTold(t, u, ids);
      HeadsTell(t, u, ids);
      assert |x| == |y| && (|x| > 1 ==> x[1] == y[1]) && (|x| > 3 ==> x[2] == y[2] && x[3] == y[3]);
    }
  }

  lemma PolicyAgrees(t: Trust, u: Trust)
    ensures PolicyOf(t) == PolicyOf(u) <==>
              && Mode(t) == Mode(u)
              && (Mode(t) in ["none", "pinned"] ==> multiset(OrElse(t.pins, [])) == multiset(OrElse(u.pins, [])))
              && (Mode(t) in ["system", "anchors", "pinned"] ==>
                    OrElse(t.revocation, "staple") == OrElse(u.revocation, "staple"))
              && (Mode(t) == "pinned" ==> AnchorsOf(t) == AnchorsOf(u))
              && (Mode(t) == "anchors" ==>
                    && |OrElse(t.anchors, [])| == |OrElse(u.anchors, [])|
                    && AD.Digest(OrElse(t.anchors, [])) == AD.Digest(OrElse(u.anchors, [])))
              && (Mode(t) == "custom" ==> t.verify == u.verify)
  {
    hide AnchorsOf, AD.Digest, Mode, OrElse;
  }

  lemma PolicyTold(t: Trust, u: Trust, ids: Ids)
    requires Numbered(ids) && Covers(ids, t.verify) && Covers(ids, u.verify)
    requires ProperTrust(t) && ProperTrust(u)
    ensures TrustPieces(t, ids) == TrustPieces(u, ids) <==> PolicyOf(t) == PolicyOf(u)
  {
    hide TrustPieces, PolicyOf, PinsText, RevText, AnchorsText, CountAndDigest, CallbackText, Mode;
    hide ProperPin, Numbered, AD.Digest, AnchorsOf;
    PinsTell(t, u);
    RevTells(t, u);
    AnchorsTell(t, u);
    CountAndDigestTell(OrElse(t.anchors, []), OrElse(u.anchors, []));
    CallbackTells(ids, t.verify, u.verify);
    PiecesAgree(t, u, ids);
    PolicyAgrees(t, u);
  }

  /** Everything after the colon of the first piece. */
  lemma HeadsTell(t: Trust, u: Trust, ids: Ids)
    requires Covers(ids, t.verify) && Covers(ids, u.verify)
    requires Mode(t) == Mode(u) && TrustPieces(t, ids)[0] == TrustPieces(u, ids)[0]
    ensures Mode(t) == "custom" ==> CallbackText(ids, t.verify) == CallbackText(ids, u.verify)
    ensures Mode(t) == "anchors" ==> CountAndDigest(OrElse(t.anchors, [])) == CountAndDigest(OrElse(u.anchors, []))
  {
    hide PinsText, RevText, AnchorsText, CountAndDigest, CallbackText;
    if Mode(t) == "custom" {
      SameLengthParts("custom:", CallbackText(ids, t.verify), "custom:", CallbackText(ids, u.verify));
    } else if Mode(t) == "anchors" {
      SameLengthParts("anchors:", CountAndDigest(OrElse(t.anchors, [])),
                      "anchors:", CountAndDigest(OrElse(u.anchors, [])));
    }
  }

  // ---------------------------------------------------------------- site, proxy, and the whole key

  lemma SiteTold(i: Input, j: Input)
    requires i.scheme in ["http:", "https:"] && j.scheme in ["http:", "https:"] && Plain(i.hostname)
    ensures SiteText(i) == SiteText(j) <==> i.scheme == j.scheme && i.hostname == j.hostname && i.port == j.port
    ensures Plain(SiteText(i))
  {
    hide Numeral;
    NotADigit('|', i.port, 10);
    if SiteText(i) == SiteText(j) {
      assert SiteText(i)[4] == i.scheme[4] && SiteText(j)[4] == j.scheme[4];
      assert i.scheme == j.scheme;
      HostAndPort(i.scheme + "//", i.hostname, i.port, j.scheme + "//", j.hostname, j.port);
    }
  }

  lemma HostAndPort(a: string, h: string, p: nat, b: string, k: string, q: nat)
    requires a + h + ":" + Numeral(p, 10) == b + k + ":" + Numeral(q, 10)
    ensures a + h == b + k && p == q
    ensures |a| == |b| ==> h == k
  {
    NotADigit(':', p, 10);
    NotADigit(':', q, 10);
    CutLast(a + h, Numeral(p, 10), b + k, Numeral(q, 10), ':');
    NumeralInjective(p, q, 10);
    if |a| == |b| {
      SameLengthParts(a, h, b, k);
    }
  }

  function UserAt(p: Proxy): string {
    if p.username == "" then "" else p.username + "@"
  }

  lemma ProxyTold(p: Proxy, q: Proxy)
    requires ProperProxy(p) && ProperProxy(q)
    ensures ProxyText(Some(p)) == ProxyText(Some(q)) <==> p.(password := "") == q.(password := "")
    ensures Plain(ProxyText(Some(p))) && ProxyText(Some(p)) != ProxyText(None)
  {
    hide ProxyText, Numeral, UserAt;
    ProxyShape(p);
    ProxyShape(q);
    if ProxyText(Some(p)) == ProxyText(Some(q)) {
      CutFirst(p.protocol, AfterProtocol(p), q.protocol, AfterProtocol(q), ':');
      HostAndPort("//" + UserAt(p), p.hostname, p.port, "//" + UserAt(q), q.hostname, q.port);
      assert "//" + UserAt(p) + p.hostname == "//" + (UserAt(p) + p.hostname);
      assert "//" + UserAt(q) + q.hostname == "//" + (UserAt(q) + q.hostname);
      SameLengthParts("//", UserAt(p) + p.hostname, "//", UserAt(q) + q.hostname);
      UserTold(p, q);
    } else if p.(password := "") == q.(password := "") {
      assert UserAt(p) == UserAt(q) by { UserSame(p, q); }
    }
  }

  function AfterProtocol(p: Proxy): string {
    "//" + UserAt(p) + p.hostname + ":" + Numeral(p.port, 10)
  }

  lemma UserSame(p: Proxy, q: Proxy)
    requires p.username == q.username
    ensures UserAt(p) == UserAt(q)
  {
  }

  lemma ProxyShape(p: Proxy)
    requires ProperProxy(p)
    ensures ProxyText(Some(p)) == p.protocol + [':'] + AfterProtocol(p)
    ensures Plain(ProxyText(Some(p))) && ProxyText(Some(p)) != ProxyText(None)
  {
    NotADigit('|', p.port, 10);
    hide Numeral;
    assert ProxyText(Some(p)) == p.protocol + "://" + UserAt(p) + p.hostname + ":" + Numeral(p.port, 10);
    assert ProxyText(Some(p))[|p.protocol|] == ':';
  }

  lemma UserTold(p: Proxy, q: Proxy)
    requires '@' !in p.hostname && '@' !in q.hostname
    requires UserAt(p) + p.hostname == UserAt(q) + q.hostname
    ensures p.username == q.username && p.hostname == q.hostname
  {
    var s, t := UserAt(p) + p.hostname, UserAt(q) + q.hostname;
    assert p.username != "" ==> s[|p.username|] == '@';
    assert q.username != "" ==> t[|q.username|] == '@';
    if p.username != "" && q.username != "" {
      assert s == p.username + ['@'] + p.hostname && t == q.username + ['@'] + q.hostname;
      CutLast(p.username, p.hostname, q.username, q.hostname, '@');
    } else if p.username == "" && q.username == "" {
      assert s == p.hostname && t == q.hostname;
    }
  }

  function Pieces(i: Input, ids: Ids): seq<string>
    requires Covers(ids, i.trust.verify)
  {
    [SiteText(i), ProxyText(i.proxy)] + TrustPieces(i.trust, ids)
  }

  lemma KeyShape(i: Input, ids: Ids)
    requires Covers(ids, i.trust.verify)
    ensures Key(i, ids) == Barred(Pieces(i, ids), TlsText(i))
  {
    hide SiteText, ProxyText, TrustText, TrustPieces, TlsText;
    TrustShape(i.trust, ids, TlsText(i));
    var trust := TrustPieces(i.trust, ids);
    assert Pieces(i, ids)[1..] == [ProxyText(i.proxy)] + trust && Pieces(i, ids)[1..][1..] == trust;
    assert Barred([ProxyText(i.proxy)] + trust, TlsText(i)) == ProxyText(i.proxy) + ['|'] + Barred(trust, TlsText(i));
  }

  /** On proper inputs equal keys mean equal meanings, and requests with equal meanings share a key:
      the order of pins makes no difference, and neither does a field that the mode does not read. */
  lemma KeyTells(i: Input, j: Input, ids: Ids)
    requires Numbered(ids) && Covers(ids, i.trust.verify) && Covers(ids, j.trust.verify)
    requires Proper(i) && Proper(j)
    ensures Key(i, ids) == Key(j, ids) <==> MeaningOf(i) == MeaningOf(j)
  {
    ProxiesTold(i, j);
    hide Plain, ProperPin, SiteText, ProxyText, TrustPieces, PolicyOf, Key, TrustText, Numbered, Mode;
    SiteTold(i, j);
    PolicyTold(i.trust, j.trust, ids);
    if Key(i, ids) == Key(j, ids) {
      PiecesTold(i, j, ids);
    } else if MeaningOf(i) == MeaningOf(j) {
      KeyShape(i, ids);
      KeyShape(j, ids);
    }
  }

  /** The two trust configurations are the same policy, field by field: the mode, and of the fields those
      that its verifier reads. */
  predicate SamePolicy(t: Trust, u: Trust) {
    var mode := if t.mode.None? then "system" else t.mode.value;
    var samePins := multiset(if t.pins.None? then [] else t.pins.value) == multiset(if u.pins.None? then [] else u.pins.value);
    var sameRev := (if t.revocation.None? then "staple" else t.revocation.value)
                   == if u.revocation.None? then "staple" else u.revocation.value;
    && mode == (if u.mode.None? then "system" else u.mode.value)
    && (mode == "none" ==> samePins)
    && (mode == "custom" ==> t.verify == u.verify)
    && (mode == "system" ==> sameRev)
    && (mode == "anchors" ==>
          sameRev && SameAnchors(if t.anchors.None? then [] else t.anchors.value, if u.anchors.None? then [] else u.anchors.value))
    && (mode == "pinned" ==>
          && samePins && sameRev && (t.anchors.None? <==> u.anchors.None?)
          && (t.anchors.Some? && u.anchors.Some? ==> SameAnchors(t.anchors.value, u.anchors.value)))
  }

  predicate SameAnchors(a: seq<AD.Anchor>, b: seq<AD.Anchor>) {
    |a| == |b| && AD.Digest(a) == AD.Digest(b)
  }

  /** The same, of a whole request: which two may share a connection, told from the options themselves. */
  lemma KeySharesExactlyWhen(i: Input, j: Input, ids: Ids)
    requires Numbered(ids) && Covers(ids, i.trust.verify) && Covers(ids, j.trust.verify)
    requires Proper(i) && Proper(j)
    ensures Key(i, ids) == Key(j, ids) <==>
              && i.scheme == j.scheme && i.hostname == j.hostname && i.port == j.port
              && (i.proxy.None? <==> j.proxy.None?)
              && (i.proxy.Some? && j.proxy.Some? ==>
                    && i.proxy.value.protocol == j.proxy.value.protocol
                    && i.proxy.value.username == j.proxy.value.username
                    && i.proxy.value.hostname == j.proxy.value.hostname
                    && i.proxy.value.port == j.proxy.value.port)
              && SamePolicy(i.trust, j.trust) && i.tls == j.tls
  {
    KeyTells(i, j, ids);
    PolicySame(i.trust, j.trust);
    hide Key, PolicyOf, SamePolicy, Proper;
  }

  lemma PolicySame(t: Trust, u: Trust)
    ensures PolicyOf(t) == PolicyOf(u) <==> SamePolicy(t, u)
  {
    hide AD.Digest;
    PolicyAgrees(t, u);
    hide PolicyOf;
  }

  /** A key does not drift when other callbacks are numbered later. */
  lemma KeyStable(i: Input, ids: Ids, later: Callback)
    requires Numbered(ids) && Covers(ids, i.trust.verify)
    ensures Covers(Assign(ids, later), i.trust.verify) && Key(i, Assign(ids, later)) == Key(i, ids)
  {
    hide Numbered;
    AssignKeeps(ids, later);
  }

  lemma ProxiesTold(i: Input, j: Input)
    requires Proper(i) && Proper(j)
    ensures ProxyText(i.proxy) == ProxyText(j.proxy) <==> MeaningOf(i).proxy == MeaningOf(j).proxy
    ensures Plain(ProxyText(i.proxy))
  {
    hide ProxyText, PolicyOf, Mode, ProperPin;
    if i.proxy.Some? && j.proxy.Some? {
      ProxyTold(i.proxy.value, j.proxy.value);
    } else if i.proxy.Some? {
      ProxyTold(i.proxy.value, i.proxy.value);
    } else if j.proxy.Some? {
      ProxyTold(j.proxy.value, j.proxy.value);
    }
    Direct();
  }

  lemma Direct()
    ensures Plain(ProxyText(None))
  {
  }

  lemma PiecesTold(i: Input, j: Input, ids: Ids)
    requires Covers(ids, i.trust.verify) && Covers(ids, j.trust.verify)
    requires Proper(i) && Proper(j) && Key(i, ids) == Key(j, ids)
    ensures SiteText(i) == SiteText(j) && ProxyText(i.proxy) == ProxyText(j.proxy)
    ensures TrustPieces(i.trust, ids) == TrustPieces(j.trust, ids) && TlsText(i) == TlsText(j)
  {
    ProxiesTold(i, j);
    ProxiesTold(j, i);
    hide Proper, Plain, ProperPin, SiteText, ProxyText, TrustPieces, Key, TrustText, PolicyOf, ProperTrust, TlsText;
    Sites(i, j);
    PiecesPlain(i.trust, ids);
    PiecesPlain(j.trust, ids);
    KeyShape(i, ids);
    KeyShape(j, ids);
    var x, y := TrustPieces(i.trust, ids), TrustPieces(j.trust, ids);
    TrustPiecesSome(i.trust, ids);
    TrustPiecesSome(j.trust, ids);
    BarredHead(Pieces(i, ids), Pieces(j, ids), TlsText(i), TlsText(j));
    BarredHead(Pieces(i, ids)[1..], Pieces(j, ids)[1..], TlsText(i), TlsText(j));
    assert Pieces(i, ids)[1..][1..] == x && Pieces(j, ids)[1..][1..] == y;
    BarredHead(x, y, TlsText(i), TlsText(j));
    ModeTold(i.trust, j.trust, ids);
    TrustPiecesCount(i.trust, j.trust, ids);
    BarredTells(x, y, TlsText(i), TlsText(j));
  }

  lemma Sites(i: Input, j: Input)
    requires Proper(i) && Proper(j)
    ensures Plain(SiteText(i)) && Plain(SiteText(j))
  {
    hide SiteText, Plain, Mode, ProperPin;
    SiteTold(i, j);
    SiteTold(j, i);
  }

  lemma TrustPiecesSome(t: Trust, ids: Ids)
    requires Covers(ids, t.verify)
    ensures TrustPieces(t, ids) != []
  {
  }

  lemma TrustPiecesCount(t: Trust, u: Trust, ids: Ids)
    requires Covers(ids, t.verify) && Covers(ids, u.verify) && Mode(t) == Mode(u)
    ensures |TrustPieces(t, ids)| == |TrustPieces(u, ids)|
  {
    hide Mode;
  }

  // ---------------------------------------------------------------- where proper inputs end

  function Without(scheme: string, trust: Trust): Input {
    Input(scheme, "example.com", 443, None, trust, None)
  }

  /** A comma inside a pin makes one pin look like two. */
  lemma CommaInPin(ids: Ids)
    ensures
      var t := Trust(Some("none"), None, Some(["a,b"]), None, NotAFunction);
      var u := t.(pins := Some(["a", "b"]));
      && Key(Without("https:", t), ids) == Key(Without("https:", u), ids)
      && MeaningOf(Without("https:", t)) != MeaningOf(Without("https:", u))
  {
    assert Join(Sort(["a,b"]), ',') == "a,b";
    assert Sort(["b"]) == ["b"] && Sort(["a", "b"]) == ["a", "b"];
    assert Join(["a", "b"], ',') == "a,b";
    assert multiset(["a,b"])["a"] == 0 && multiset(["a", "b"])["a"] == 1;
  }
}
