/** The request loop: `performFetch` of src/client.js with `nextRequest` of src/client/redirect.js. */
module Fetching {
  import opened Wrappers
  import opened Headers
  import HP = HeaderPaths

  /** A URL without its fragment; `port` is the effective one. */
  datatype Url = Url(scheme: string, host: string, port: nat, path: string)

  datatype Hop = Hop(method_: string, url: Url, headers: Fields, body: Option<string>)

  datatype Location = Unusable | To(url: Url)

  /** What an exchange comes to. */
  datatype Answer = Throws | Responds(status: nat, location: Location)

  datatype Mode = Follow | Manual | Error

  datatype End =
    | ExchangeThrew
    | RedirectRefused
    | TooMany
    | BadLocation
    | Loop
    | Finished(status: nat, url: Url, redirected: bool)

  // ---------------------------------------------------------------- one redirect

  predicate Redirects(status: nat) {
    status in {301, 302, 303, 307, 308}
  }

  function UpperChar(c: char): char {
    if 'a' <= c <= 'z' then c - ' ' else c
  }

  function Upper(s: string): (r: string)
    ensures |r| == |s| && forall k | 0 <= k < |s| :: r[k] == UpperChar(s[k])
  {
    seq(|s|, k requires 0 <= k < |s| => UpperChar(s[k]))
  }

  function Rewritten(status: nat, method_: string): string {
    var m := Upper(method_);
    if status == 303 then (if m == "HEAD" then "HEAD" else "GET")
    else if (status == 301 || status == 302) && m == "POST" then "GET"
    else m
  }

  predicate SameOrigin(u: Url, v: Url) {
    u.scheme == v.scheme && u.host == v.host && u.port == v.port
  }

  const CREDENTIALS: set<string> := {"authorization", "cookie", "proxy-authorization"}
  const OF_BODY: set<string> := {"content-length", "content-type", "content-encoding", "transfer-encoding"}

  /** The names that do not survive the step from one hop to the next. */
  function Dropped(h: Hop, status: nat, url: Url): set<string> {
    {"host"} + (if SameOrigin(h.url, url) then {} else CREDENTIALS)
    + (if Rewritten(status, h.method_) == Upper(h.method_) then {} else OF_BODY)
  }

  function Followed(h: Hop, status: nat, url: Url): Hop {
    Hop(Rewritten(status, h.method_), url, Without(h.headers, Dropped(h, status, url)),
        if Rewritten(status, h.method_) == Upper(h.method_) then h.body else None)
  }

  /** What a redirect makes of a request, by the statuses, methods and header names themselves. */
  ghost predicate ByTheBook(h: Hop, status: nat, url: Url, next: Hop) {
    var m := Upper(h.method_);
    && next.url == url
    && (status == 303 ==> next.method_ == if m == "HEAD" then "HEAD" else "GET")
    && (status == 301 || status == 302 ==> next.method_ == if m == "POST" then "GET" else m)
    && (status == 307 || status == 308 ==> next.method_ == m && next.body == h.body)
    && next.body == (if next.method_ == m then h.body else None)
    && forall name :: Values(next.headers, name) == if Goes(h, url, next.method_ != m, Lower(name)) then [] else Values(h.headers, name)
  }

  /** Host never survives; credentials do not survive a change of scheme, host or port, nor do the fields
      about the body a change of method. */
  predicate Goes(h: Hop, url: Url, rewritten: bool, name: string) {
    || name == "host"
    || (name in ["authorization", "cookie", "proxy-authorization"]
        && (url.scheme != h.url.scheme || url.host != h.url.host || url.port != h.url.port))
    || (name in ["content-length", "content-type", "content-encoding", "transfer-encoding"] && rewritten)
  }

  /** Upper case is that of ASCII letters. */
  lemma UpperIs(s: string, k: nat)
    requires k < |s|
    ensures Upper(s)[k] as int == if 'a' <= s[k] <= 'z' then s[k] as int - 32 else s[k] as int
  {
  }

  lemma FollowedByTheBook(h: Hop, status: nat, url: Url)
    requires status in {301, 302, 303, 307, 308}
    ensures ByTheBook(h, status, url, Followed(h, status, url))
  {
    var next := Followed(h, status, url);
    forall name
      ensures Values(next.headers, name) ==
              if Goes(h, url, next.method_ != Upper(h.method_), Lower(name)) then [] else Values(h.headers, name)
    {
      FollowedValues(h, status, url, name);
    }
    hide Lower, Values;
  }

  /** What loop detection compares. */
  function KeyOf(h: Hop): (string, Url) {
    (Upper(h.method_), h.url)
  }

  datatype Next = Hops(hop: Hop) | Stops(why: End)

  /** nextRequest.  The history it is given and leaves is returned beside. */
  method NextRequest(h: Hop, status: nat, location: Location, maxRedirects: nat, history: seq<(string, Url)>)
      returns (next: Next, history': seq<(string, Url)>)
    requires Redirects(status)
    ensures next == Stops(TooMany) <==> |history| >= maxRedirects
    ensures next == Stops(BadLocation) <==> |history| < maxRedirects && location.Unusable?
    ensures next.Hops? || next == Stops(Loop) ==> location.To? && |history| < maxRedirects
    ensures next == Stops(Loop) ==>
              KeyOf(Followed(h, status, location.url)) in history + [KeyOf(h)]
    ensures next.Hops? ==>
              && next.hop == Followed(h, status, location.url)
              && ByTheBook(h, status, location.url, next.hop)
              && KeyOf(next.hop) !in history + [KeyOf(h)]
              && history' == history + [KeyOf(h)]
    ensures next.Stops? ==> next.why in {TooMany, BadLocation, Loop}
  {
    history' := history;
    if location.To? {
      FollowedByTheBook(h, status, location.url);
    }
    hide ByTheBook;
    if |history| >= maxRedirects { return Stops(TooMany), history; }
    if location.Unusable? { return Stops(BadLocation), history; }
    var url := location.url;
    var method_ := Rewritten(status, h.method_);
    var rewritten := method_ != Upper(h.method_);
    history' := history + [KeyOf(h)];
    UpperAgain(status, h.method_);
    if (method_, url) in history' { return Stops(Loop), history'; }
    var headers := h.headers;
    if !SameOrigin(h.url, url) {
      headers := Without(headers, CREDENTIALS);
    }
    headers := Without(headers, {"host"});
    var body := h.body;
    if rewritten {
      body := None;
      headers := Without(headers, OF_BODY);
    }
    hide CREDENTIALS, OF_BODY, Upper, Rewritten;
    WithoutInTurn(h.headers, if SameOrigin(h.url, url) then {} else CREDENTIALS, {"host"},
                  if rewritten then OF_BODY else {});
    HP.WithoutNothing(h.headers);
    HP.WithoutNothing(Without(Without(h.headers, if SameOrigin(h.url, url) then {} else CREDENTIALS), {"host"}));
    next := Hops(Hop(method_, url, headers, body));
  }

  lemma UpperAgain(status: nat, method_: string)
    ensures Upper(Rewritten(status, method_)) == Rewritten(status, method_)
  {
  }

  lemma WithoutInTurn(list: Fields, a: set<string>, b: set<string>, c: set<string>)
    ensures Without(Without(Without(list, a), b), c) == Without(list, b + a + c)
  {
    WithoutTwice(list, a, b);
    WithoutTwice(list, a + b, c);
    assert a + b + c == b + a + c;
  }

  // ---------------------------------------------------------------- a whole fetch

  /** The hops of a fetch, each the redirect of the one before, none like any other. */
  ghost predicate Trace(start: Hop, mode: Mode, maxRedirects: nat, answers: nat -> Answer, sent: seq<Hop>) {
    && 0 < |sent| <= maxRedirects + 1 && sent[0] == start
    && (|sent| > 1 ==> mode.Follow?)
    && (forall k | 0 < k < |sent| :: Step(answers(k - 1), sent[k - 1], sent[k]))
    && (forall i, j | 0 <= i < j < |sent| :: KeyOf(sent[i]) != KeyOf(sent[j]))
  }

  predicate Step(a: Answer, h: Hop, next: Hop) {
    a.Responds? && a.status in {301, 302, 303, 307, 308} && a.location.To?
    && next == Followed(h, a.status, a.location.url)
  }

  /** How a fetch that sent these hops must end, given the last answer. */
  ghost predicate EndsSo(mode: Mode, maxRedirects: nat, a: Answer, sent: seq<Hop>, r: End)
    requires sent != []
  {
    var last := sent[|sent| - 1];
    if a.Throws? then r == ExchangeThrew
    else if a.status !in {301, 302, 303, 307, 308} || mode.Manual? then r == Finished(a.status, last.url, |sent| > 1)
    else if mode.Error? then r == RedirectRefused
    else if |sent| > maxRedirects then r == TooMany
    else if a.location.Unusable? then r == BadLocation
    else r == Loop && exists k | 0 <= k < |sent| :: KeyOf(sent[k]) == KeyOf(Followed(last, a.status, a.location.url))
  }

  /** The history holds the keys of all hops but the last. */
  ghost predicate Remembers(history: seq<(string, Url)>, sent: seq<Hop>) {
    |history| + 1 == |sent| && forall k | 0 <= k < |history| :: history[k] == KeyOf(sent[k])
  }

  ghost function Keys(sent: seq<Hop>): seq<(string, Url)> {
    seq(|sent|, k requires 0 <= k < |sent| => KeyOf(sent[k]))
  }

  lemma RemembersAll(history: seq<(string, Url)>, sent: seq<Hop>)
    requires Remembers(history, sent)
    ensures history + [KeyOf(sent[|sent| - 1])] == Keys(sent)
  {
  }

  lemma AmongKeys(sent: seq<Hop>, key: (string, Url))
    ensures key in Keys(sent) <==> exists k | 0 <= k < |sent| :: KeyOf(sent[k]) == key
  {
    forall k | 0 <= k < |sent| ensures KeyOf(sent[k]) in Keys(sent) {
      assert Keys(sent)[k] == KeyOf(sent[k]);
    }
  }

  lemma TraceMore(start: Hop, mode: Mode, maxRedirects: nat, answers: nat -> Answer, sent: seq<Hop>, hop: Hop)
    requires Trace(start, mode, maxRedirects, answers, sent) && mode.Follow? && |sent| <= maxRedirects
    requires Step(answers(|sent| - 1), sent[|sent| - 1], hop) && KeyOf(hop) !in Keys(sent)
    ensures Trace(start, mode, maxRedirects, answers, sent + [hop])
    ensures Remembers(Keys(sent), sent + [hop])
  {
    hide Step, KeyOf;
    AmongKeys(sent, KeyOf(hop));
  }

  method PerformFetch(start: Hop, mode: Mode, maxRedirects: nat, answers: nat -> Answer)
      returns (r: End, sent: seq<Hop>)
    ensures Trace(start, mode, maxRedirects, answers, sent)
    ensures EndsSo(mode, maxRedirects, answers(|sent| - 1), sent, r)
  {
    var current := start;
    var history: seq<(string, Url)> := [];
    sent := [start];
    assert Trace(start, mode, maxRedirects, answers, sent);
    hide Followed, KeyOf, Redirects, Trace;
    while true
      invariant Trace(start, mode, maxRedirects, answers, sent)
      invariant sent != [] && sent[|sent| - 1] == current && |sent| <= maxRedirects + 1
      invariant Remembers(history, sent)
      decreases maxRedirects + 1 - |sent|
    {
      var answer := answers(|sent| - 1);
      if answer.Throws? { return ExchangeThrew, sent; }
      if !mode.Follow? || !Redirects(answer.status) {
        if mode.Error? && Redirects(answer.status) { return RedirectRefused, sent; }
        return Finished(answer.status, current.url, |history| > 0), sent;
      }
      var next, history' := NextRequest(current, answer.status, answer.location, maxRedirects, history);
      RemembersAll(history, sent);
      match next
      case Stops(why) =>
        if why.Loop? {
          AmongKeys(sent, KeyOf(Followed(current, answer.status, answer.location.url)));
        }
        return why, sent;
      case Hops(hop) =>
        TraceMore(start, mode, maxRedirects, answers, sent, hop);
        current, history, sent := hop, history', sent + [hop];
    }
  }

  // ---------------------------------------------------------------- what survives the hops

  lemma FollowedValues(h: Hop, status: nat, url: Url, name: string)
    ensures Values(Followed(h, status, url).headers, name) ==
            if Lower(name) in Dropped(h, status, url) then [] else Values(h.headers, name)
  {
    HP.ValuesWithout(h.headers, Dropped(h, status, url), name);
  }

  /** In every fetch, each hop but the first is what its answer makes of the one before: a redirect, its
      location, and the method, body and headers as the statuses say. */
  lemma HopsByTheBook(start: Hop, mode: Mode, maxRedirects: nat, answers: nat -> Answer, sent: seq<Hop>, k: nat)
    requires Trace(start, mode, maxRedirects, answers, sent) && 0 < k < |sent|
    ensures
      var a := answers(k - 1);
      && a.Responds? && a.status in {301, 302, 303, 307, 308} && a.location.To?
      && ByTheBook(sent[k - 1], a.status, a.location.url, sent[k])
  {
    var a := answers(k - 1);
    assert Step(a, sent[k - 1], sent[k]);
    FollowedByTheBook(sent[k - 1], a.status, a.location.url);
    hide Followed, ByTheBook;
  }

  /** No two hops of a fetch are the same request, and it ends for a loop only when the next one would be
      the same as one before: the same URL, and the same method in upper case. */
  lemma LoopsAreRepeats(start: Hop, mode: Mode, maxRedirects: nat, answers: nat -> Answer, sent: seq<Hop>, r: End)
    requires Trace(start, mode, maxRedirects, answers, sent) && EndsSo(mode, maxRedirects, answers(|sent| - 1), sent, r)
    ensures forall i, j | 0 <= i < j < |sent| ::
              sent[i].url != sent[j].url || Upper(sent[i].method_) != Upper(sent[j].method_)
    ensures r == Loop ==>
              var a := answers(|sent| - 1);
              && a.Responds? && a.location.To?
              && exists hop, k | 0 <= k < |sent| ::
                   && ByTheBook(sent[|sent| - 1], a.status, a.location.url, hop)
                   && sent[k].url == hop.url && Upper(sent[k].method_) == hop.method_
  {
    forall i, j | 0 <= i < j < |sent|
      ensures sent[i].url != sent[j].url || Upper(sent[i].method_) != Upper(sent[j].method_)
    {
      assert KeyOf(sent[i]) != KeyOf(sent[j]);
    }
    if r == Loop {
      var a, last := answers(|sent| - 1), sent[|sent| - 1];
      var hop := Followed(last, a.status, a.location.url);
      var k :| 0 <= k < |sent| && KeyOf(sent[k]) == KeyOf(hop);
      FollowedByTheBook(last, a.status, a.location.url);
      UpperAgain(a.status, last.method_);
    }
  }

  /** Hop j + 1 goes to the scheme, host and port of hop j. */
  predicate StaysHome(sent: seq<Hop>, j: nat)
    requires j + 1 < |sent|
  {
    var u, v := sent[j].url, sent[j + 1].url;
    u.scheme == v.scheme && u.host == v.host && u.port == v.port
  }

  /** Credentials the caller gave are on a hop as they were given as long as no step so far has changed
      the scheme, host or port, and on no hop after one that has. */
  lemma {:induction false} CredentialsStayHome(
      start: Hop, mode: Mode, maxRedirects: nat, answers: nat -> Answer, sent: seq<Hop>, k: nat, name: string)
    requires Trace(start, mode, maxRedirects, answers, sent) && k < |sent|
    requires Lower(name) in ["authorization", "cookie", "proxy-authorization"]
    ensures Values(sent[k].headers, name) ==
            if forall j | 0 <= j < k :: StaysHome(sent, j) then Values(start.headers, name) else []
  {
    if k > 0 {
      CredentialsStayHome(start, mode, maxRedirects, answers, sent, k - 1, name);
      HopsByTheBook(start, mode, maxRedirects, answers, sent, k);
      assert (forall j | 0 <= j < k :: StaysHome(sent, j)) <==>
             StaysHome(sent, k - 1) && forall j | 0 <= j < k - 1 :: StaysHome(sent, j);
      CredentialsGo(sent[k - 1], answers(k - 1).status, answers(k - 1).location.url, sent[k], name);
      hide Trace, Lower, Values, ByTheBook;
    }
  }

  lemma CredentialsGo(h: Hop, status: nat, url: Url, next: Hop, name: string)
    requires ByTheBook(h, status, url, next) && Lower(name) in ["authorization", "cookie", "proxy-authorization"]
    ensures next.url == url
    ensures Values(next.headers, name) ==
            if h.url.scheme == url.scheme && h.url.host == url.host && h.url.port == url.port
            then Values(h.headers, name) else []
  {
    hide Values;
    var m := Upper(h.method_);
    assert Values(next.headers, name) ==
           if Goes(h, url, next.method_ != m, Lower(name)) then [] else Values(h.headers, name);
    assert Lower(name) !in ["content-length", "content-type", "content-encoding", "transfer-encoding"]
        && Lower(name) != "host" by {
      NoBodyField(Lower(name));
    }
    hide Lower;
  }

  lemma NoBodyField(name: string)
    requires name in ["authorization", "cookie", "proxy-authorization"]
    ensures name !in ["content-length", "content-type", "content-encoding", "transfer-encoding"] && name != "host"
  {
  }

  /** A hop carries the caller's body, or none from the hop on whose method was rewritten. */
  lemma {:induction false} BodyGoesWithMethod(
      start: Hop, mode: Mode, maxRedirects: nat, answers: nat -> Answer, sent: seq<Hop>, k: nat)
    requires Trace(start, mode, maxRedirects, answers, sent) && k < |sent|
    ensures sent[k].body ==
            if forall j | 0 <= j < k :: Upper(sent[j + 1].method_) == Upper(sent[j].method_)
            then start.body else None
  {
    if k > 0 {
      BodyGoesWithMethod(start, mode, maxRedirects, answers, sent, k - 1);
      var a := answers(k - 1);
      assert Step(a, sent[k - 1], sent[k]);
      UpperAgain(a.status, sent[k - 1].method_);
      hide Upper, Rewritten;
    }
  }
}
