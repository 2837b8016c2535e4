/** `buildHeaders` and `buildH2Request` of src/client.js: two separately written ways to one list. */
module HeaderPaths {
  import opened Wrappers
  import opened Text
  import opened Headers

  /** What a Client was configured with; `codings` is what it can decode. */
  datatype Options = Options(
    profileHeaders: Fields, decompresses: bool, codings: string, keepAlive: bool, order: seq<string>)

  /** One request; `cookie` is what the jar holds for its URL, empty if nothing or no jar. */
  datatype Request = Request(
    method_: string, secure: bool, hostname: string, port: nat, headers: Fields, cookie: string,
    body: Option<string>)

  // ---------------------------------------------------------------- what the two paths compute

  ghost predicate AllNamed(list: Fields) {
    forall k | 0 <= k < |list| :: list[k].name != ""
  }

  /** Profile headers are defaults: one whose name is present already changes nothing. */
  function Defaulted(list: Fields, profile: Fields): Option<Fields>
    decreases |profile|
  {
    if profile == [] then Some(list)
    else if Has(list, profile[0].name) then Defaulted(list, profile[1..])
    else if profile[0].name == "" then None
    else Defaulted(With(list, profile[0].name, profile[0].value), profile[1..])
  }

  function Accepting(o: Options, list: Fields): Fields {
    var l := if Has(list, "accept") then list else With(list, "accept", "*/*");
    if Has(l, "accept-encoding") || !o.decompresses then l else With(l, "accept-encoding", o.codings)
  }

  function WithCookie(list: Fields, cookie: string): Fields {
    var existing := Commas(Values(list, "cookie"));
    if cookie == "" then list
    else With(list, "cookie", if existing == "" then cookie else existing + "; " + cookie)
  }

  /** What both paths start from; None when a name is empty. */
  function Common(o: Options, q: Request): Option<Fields> {
    if exists k :: 0 <= k < |q.headers| && q.headers[k].name == "" then None
    else
      match Defaulted(q.headers, o.profileHeaders)
      case None => None
      case Some(list) => Some(WithCookie(Accepting(o, list), q.cookie))
  }

  predicate SendsLength(q: Request) {
    q.body.Some? || q.method_ in ["POST", "PUT", "PATCH"]
  }

  function BodyLength(q: Request): nat {
    match q.body case None => 0 case Some(b) => |b|
  }

  function Framed(list: Fields, q: Request): Fields {
    if SendsLength(q) then With(list, "content-length", Numeral(BodyLength(q), 10))
    else Without(list, {"content-length"})
  }

  function HostValue(q: Request): string {
    if q.port == (if q.secure then 443 else 80) then q.hostname else q.hostname + ":" + Numeral(q.port, 10)
  }

  function H1Fields(o: Options, q: Request): Option<Fields> {
    match Common(o, q)
    case None => None
    case Some(list) =>
      var connected := With(list, "connection", if o.keepAlive then "keep-alive" else "close");
      var framed := Framed(Without(connected, {"transfer-encoding"}), q);
      Some(Reordered(With(framed, "Host", HostValue(q)), o.order))
  }

  const H1_ONLY: set<string> :=
    {"connection", "keep-alive", "proxy-connection", "transfer-encoding", "upgrade", "host"}

  function H2Fields(o: Options, q: Request): Option<Fields> {
    match Common(o, q)
    case None => None
    case Some(list) => Some(Lowered(Reordered(Framed(Without(list, H1_ONLY), q), o.order)))
  }

  // ---------------------------------------------------------------- the two paths agree

  lemma KnownNames()
    ensures Lower("Host") == "host" && Lower("connection") == "connection"
    ensures Lower("content-length") == "content-length" && Lower("transfer-encoding") == "transfer-encoding"
    ensures "content-length" !in H1_ONLY && "connection" in H1_ONLY && "host" in H1_ONLY
    ensures {"transfer-encoding"} + H1_ONLY == H1_ONLY
  {
  }

  lemma WithoutFramed(list: Fields, q: Request)
    ensures Without(Framed(list, q), H1_ONLY) == Framed(Without(list, H1_ONLY), q)
  {
    KnownNames();
    hide Lower, H1_ONLY;
    WithoutWith(list, "content-length", Numeral(BodyLength(q), 10), H1_ONLY);
    WithoutTwice(list, {"content-length"}, H1_ONLY);
    WithoutTwice(list, H1_ONLY, {"content-length"});
    assert {"content-length"} + H1_ONLY == H1_ONLY + {"content-length"};
  }

  /** For every configuration and request, the HTTP/2 list is the HTTP/1.1 list without Host and the
      fields that belong to the connection, in lower case and in the same order. */
  lemma PathsAgree(o: Options, q: Request)
    ensures H1Fields(o, q).Some? <==> H2Fields(o, q).Some?
    ensures H1Fields(o, q).Some? ==>
              H2Fields(o, q).value == Lowered(Without(H1Fields(o, q).value, H1_ONLY))
  {
    KnownNames();
    hide Lower, H1_ONLY, Framed, Common;
    if Common(o, q).Some? {
      var list := Common(o, q).value;
      var persistence := if o.keepAlive then "keep-alive" else "close";
      var connected := With(list, "connection", persistence);
      var lean := Without(connected, {"transfer-encoding"});
      WithoutReordered(With(Framed(lean, q), "Host", HostValue(q)), o.order, H1_ONLY);
      WithoutWith(Framed(lean, q), "Host", HostValue(q), H1_ONLY);
      WithoutFramed(lean, q);
      WithoutTwice(connected, {"transfer-encoding"}, H1_ONLY);
      WithoutWith(list, "connection", persistence, H1_ONLY);
    }
  }

  // ---------------------------------------------------------------- what an HTTP/1.1 list declares

  lemma {:induction false} ValuesWithout(list: Fields, names: set<string>, name: string)
    ensures Values(Without(list, names), name) == if Lower(name) in names then [] else Values(list, name)
  {
    if list != [] {
      ValuesWithout(list[1..], names, name);
    }
  }

  lemma {:induction false} ValuesWith(list: Fields, name: string, value: string, other: string)
    ensures Values(With(list, name, value), other) ==
            if Lower(other) == Lower(name) then [value] else Values(list, other)
  {
    if list != [] {
      if Lower(list[0].name) == Lower(name) {
        var tail := Without(list[1..], {Lower(name)});
        assert ([Field(list[0].name, value)] + tail)[1..] == tail;
        ValuesWithout(list[1..], {Lower(name)}, other);
      } else {
        ValuesWith(list[1..], name, value, other);
      }
    } else {
      assert [Field(name, value)][1..] == [];
    }
  }

  lemma {:induction false} ValuesPlace(f: Field, list: Fields, order: seq<string>, name: string)
    ensures Values(Place(f, list, order), name) == Values([f] + list, name)
  {
    assert ([f] + list)[1..] == list;
    if list != [] && Rank(order, f) > Rank(order, list[0]) {
      ValuesPlace(f, list[1..], order, name);
      assert ([f] + list[1..])[1..] == list[1..];
      var tail := Place(f, list[1..], order);
      assert ([list[0]] + tail)[1..] == tail;
    }
  }

  lemma {:induction false} ValuesReordered(list: Fields, order: seq<string>, name: string)
    ensures Values(Reordered(list, order), name) == Values(list, name)
  {
    if list != [] {
      ValuesReordered(list[1..], order, name);
      ValuesPlace(list[0], Reordered(list[1..], order), order, name);
      assert ([list[0]] + Reordered(list[1..], order))[1..] == Reordered(list[1..], order);
    }
  }

  /** Whatever the caller's headers say: one Host, which is the URL's, no Transfer-Encoding, and one
      Content-Length, which is the length of the body, or none and no body. */
  lemma DeclaresItsBody(o: Options, q: Request)
    requires H1Fields(o, q).Some?
    ensures
      var list := H1Fields(o, q).value;
      && Values(list, "host") == [HostValue(q)]
      && Values(list, "transfer-encoding") == []
      && Values(list, "content-length") == (if SendsLength(q) then [Numeral(BodyLength(q), 10)] else [])
      && (!SendsLength(q) ==> BodyLength(q) == 0)
  {
    KnownNames();
    assert Lower("host") == "host";
    hide Lower, Common, HostValue, Numeral;
    var list := Common(o, q).value;
    var connected := With(list, "connection", if o.keepAlive then "keep-alive" else "close");
    var lean := Without(connected, {"transfer-encoding"});
    var hosted := With(Framed(lean, q), "Host", HostValue(q));
    forall name <- ["host", "transfer-encoding", "content-length"]
      ensures Values(Reordered(hosted, o.order), name) ==
              (if Lower(name) == "host" then [HostValue(q)]
               else if Lower(name) == "content-length"
               then (if SendsLength(q) then [Numeral(BodyLength(q), 10)] else [])
               else if Lower(name) == "transfer-encoding" then [] else Values(connected, name))
    {
      ValuesReordered(hosted, o.order, name);
      ValuesWith(Framed(lean, q), "Host", HostValue(q), name);
      ValuesWith(lean, "content-length", Numeral(BodyLength(q), 10), name);
      ValuesWithout(lean, {"content-length"}, name);
      ValuesWithout(connected, {"transfer-encoding"}, name);
    }
    assert "host" in ["host", "transfer-encoding", "content-length"];
    assert "transfer-encoding" in ["host", "transfer-encoding", "content-length"];
    assert "content-length" in ["host", "transfer-encoding", "content-length"];
  }

  lemma {:induction false} LoweredNames(list: Fields)
    ensures |Lowered(list)| == |list|
    ensures forall k | 0 <= k < |list| :: Lowered(list)[k] == Field(Lower(list[k].name), list[k].value)
  {
    if list != [] {
      LoweredNames(list[1..]);
    }
  }

  lemma {:induction false} NoneLeft(list: Fields, names: set<string>)
    ensures forall k | 0 <= k < |Without(list, names)| :: Lower(Without(list, names)[k].name) !in names
  {
    if list != [] {
      NoneLeft(list[1..], names);
    }
  }

  /** No name on the HTTP/2 list has an upper-case letter or belongs to HTTP/1.1 alone. */
  lemma H2IsWellFormed(o: Options, q: Request)
    requires H2Fields(o, q).Some?
    ensures forall f <- H2Fields(o, q).value :: Lower(f.name) == f.name && f.name !in H1_ONLY
  {
    hide H1_ONLY, Lower, H1Fields, H2Fields;
    PathsAgree(o, q);
    var h1 := Without(H1Fields(o, q).value, H1_ONLY);
    LoweredNames(h1);
    NoneLeft(H1Fields(o, q).value, H1_ONLY);
    forall k | 0 <= k < |h1| ensures Lower(Lower(h1[k].name)) == Lower(h1[k].name) {
      LowerTwice(h1[k].name);
    }
  }

  // ---------------------------------------------------------------- what a list carries, name by name

  /** What the caller gave under a name, or else the first value that the profile has for it. */
  function Given(o: Options, q: Request, name: string): seq<string> {
    if Values(q.headers, name) != [] then Values(q.headers, name)
    else if Values(o.profileHeaders, name) != [] then [Values(o.profileHeaders, name)[0]]
    else []
  }

  /** The values under every name of an HTTP/1.1 request. */
  function Expected(o: Options, q: Request, name: string): seq<string> {
    var given := Given(o, q, name);
    match Lower(name)
    case "host" =>
      [if (q.secure && q.port == 443) || (!q.secure && q.port == 80) then q.hostname
       else q.hostname + ":" + Numeral(q.port, 10)]
    case "connection" => [if o.keepAlive then "keep-alive" else "close"]
    case "transfer-encoding" => []
    case "content-length" =>
      (match q.body
       case Some(body) => [Numeral(|body|, 10)]
       case None => if q.method_ in ["POST", "PUT", "PATCH"] then ["0"] else [])
    case "cookie" =>
      if q.cookie == "" then given
      else [if Commas(given) == "" then q.cookie else Commas(given) + "; " + q.cookie]
    case "accept" => if given == [] then ["*/*"] else given
    case "accept-encoding" => if given == [] && o.decompresses then [o.codings] else given
    case _ => given
  }

  ghost predicate CarriesH1(o: Options, q: Request, list: Fields) {
    forall name :: Values(list, name) == Expected(o, q, name)
  }

  /** On HTTP/2 the same, but nothing under the names that belong to a connection. */
  ghost predicate CarriesH2(o: Options, q: Request, list: Fields) {
    forall name :: Values(list, name) ==
      if Lower(name) in ["connection", "keep-alive", "proxy-connection", "transfer-encoding", "upgrade", "host"]
      then [] else Expected(o, q, name)
  }

  lemma {:induction false} HasValues(list: Fields, name: string)
    ensures Has(list, name) <==> Values(list, name) != []
  {
    if list != [] && Lower(list[0].name) != Lower(name) {
      HasValues(list[1..], name);
    }
  }

  lemma SameName(list: Fields, name: string, other: string)
    requires Lower(name) == Lower(other)
    ensures Values(list, name) == Values(list, other)
  {
  }

  lemma {:induction false} DefaultedValues(list: Fields, profile: Fields, name: string)
    requires Defaulted(list, profile).Some?
    ensures Values(Defaulted(list, profile).value, name) ==
            if Values(list, name) != [] then Values(list, name)
            else if Values(profile, name) != [] then [Values(profile, name)[0]] else []
    decreases |profile|
  {
    hide Lower, With, Has;
    if profile != [] {
      var f := profile[0];
      HasValues(list, f.name);
      if Lower(f.name) == Lower(name) {
        SameName(list, f.name, name);
      }
      if Has(list, f.name) {
        DefaultedValues(list, profile[1..], name);
      } else {
        ValuesWith(list, f.name, f.value, name);
        DefaultedValues(With(list, f.name, f.value), profile[1..], name);
      }
    }
  }

  lemma SmallNames()
    ensures Lower("accept") == "accept" && Lower("accept-encoding") == "accept-encoding"
    ensures Lower("cookie") == "cookie" && Lower("host") == "host"
  {
  }

  /** What both paths start from. */
  lemma CommonValues(o: Options, q: Request, name: string)
    requires Common(o, q).Some?
    ensures Values(Common(o, q).value, name) ==
            if Lower(name) in ["cookie", "accept", "accept-encoding"] then Expected(o, q, name) else Given(o, q, name)
  {
    SmallNames();
    hide Lower, With, Values, Defaulted, Commas, Has;
    var list := Defaulted(q.headers, o.profileHeaders).value;
    DefaultedValues(q.headers, o.profileHeaders, name);
    AcceptingValues(o, list, name);
    CookieValues(Accepting(o, list), q.cookie, name);
    CookieValues(Accepting(o, list), q.cookie, "cookie");
    hide Accepting, WithCookie;
    if Lower(name) == "cookie" {
      SameName(Accepting(o, list), name, "cookie");
    }
  }

  lemma AcceptingValues(o: Options, list: Fields, name: string)
    ensures Values(Accepting(o, list), name) ==
            if Lower(name) == "accept" && Values(list, name) == [] then ["*/*"]
            else if Lower(name) == "accept-encoding" && Values(list, name) == [] && o.decompresses then [o.codings]
            else Values(list, name)
  {
    SmallNames();
    hide Lower, With, Has;
    var l := if Has(list, "accept") then list else With(list, "accept", "*/*");
    HasValues(list, "accept");
    HasValues(l, "accept-encoding");
    ValuesWith(list, "accept", "*/*", name);
    ValuesWith(list, "accept", "*/*", "accept-encoding");
    ValuesWith(l, "accept-encoding", o.codings, name);
    if Lower(name) == "accept" {
      SameName(list, name, "accept");
    }
    if Lower(name) == "accept-encoding" {
      SameName(list, name, "accept-encoding");
      SameName(l, name, "accept-encoding");
    }
    hide Values;
  }

  lemma CookieValues(list: Fields, cookie: string, name: string)
    ensures Values(WithCookie(list, cookie), name) ==
            if Lower(name) == "cookie" && cookie != ""
            then [if Commas(Values(list, "cookie")) == "" then cookie else Commas(Values(list, "cookie")) + "; " + cookie]
            else Values(list, name)
  {
    SmallNames();
    hide Lower, With, Values, Commas;
    var existing := Commas(Values(list, "cookie"));
    ValuesWith(list, "cookie", if existing == "" then cookie else existing + "; " + cookie, name);
  }

  lemma FramedValues(list: Fields, q: Request, name: string)
    ensures Values(Framed(list, q), name) ==
            if Lower(name) == "content-length"
            then (if SendsLength(q) then [Numeral(BodyLength(q), 10)] else [])
            else Values(list, name)
  {
    KnownNames();
    hide Lower, With, Without, Values, Numeral;
    ValuesWith(list, "content-length", Numeral(BodyLength(q), 10), name);
    ValuesWithout(list, {"content-length"}, name);
  }

  /** For every configuration and request, the HTTP/1.1 list carries under every name exactly what is
      expected: the caller's values in the caller's order, else the profile's, else the default; and the
      fields that are the client's to set. */
  lemma H1Carries(o: Options, q: Request)
    requires H1Fields(o, q).Some?
    ensures CarriesH1(o, q, H1Fields(o, q).value)
    ensures InOrder(H1Fields(o, q).value, o.order)
  {
    forall name ensures Values(H1Fields(o, q).value, name) == Expected(o, q, name) {
      H1Values(o, q, name);
    }
    hide Common, With, Without, Framed, Rank;
    var list := Common(o, q).value;
    var connected := With(list, "connection", if o.keepAlive then "keep-alive" else "close");
    ReorderIsStable(With(Framed(Without(connected, {"transfer-encoding"}), q), "Host", HostValue(q)), o.order, 0);
  }

  lemma H1Values(o: Options, q: Request, name: string)
    requires H1Fields(o, q).Some?
    ensures Values(H1Fields(o, q).value, name) == Expected(o, q, name)
  {
    hide Lower, Values, Common, H1Fields, Numeral, Commas, HostValue;
    H1Layers(o, q, name);
    CommonValues(o, q, name);
    NoLength();
    HostIs(q);
  }

  lemma HostIs(q: Request)
    ensures HostValue(q) == if (q.secure && q.port == 443) || (!q.secure && q.port == 80) then q.hostname
                            else q.hostname + ":" + Numeral(q.port, 10)
  {
  }

  /** The edits that follow the common part, the last one that has to do with a name winning. */
  lemma H1Layers(o: Options, q: Request, name: string)
    requires H1Fields(o, q).Some?
    ensures Common(o, q).Some?
    ensures
      var n := Lower(name);
      Values(H1Fields(o, q).value, name) ==
      if n == "host" then [HostValue(q)]
      else if n == "content-length" then (if SendsLength(q) then [Numeral(BodyLength(q), 10)] else [])
      else if n == "transfer-encoding" then []
      else if n == "connection" then [if o.keepAlive then "keep-alive" else "close"]
      else Values(Common(o, q).value, name)
  {
    KnownNames();
    var list := Common(o, q).value;
    var connected := With(list, "connection", if o.keepAlive then "keep-alive" else "close");
    var lean := Without(connected, {"transfer-encoding"});
    var hosted := With(Framed(lean, q), "Host", HostValue(q));
    hide Lower, With, Without, Values, Common, Framed, Numeral, HostValue, Reordered;
    ValuesWith(list, "connection", if o.keepAlive then "keep-alive" else "close", name);
    ValuesWithout(connected, {"transfer-encoding"}, name);
    FramedValues(lean, q, name);
    ValuesWith(Framed(lean, q), "Host", HostValue(q), name);
    ValuesReordered(hosted, o.order, name);
  }

  lemma NoLength()
    ensures Numeral(0, 10) == "0"
  {
  }

  lemma {:induction false} ValuesLowered(list: Fields, name: string)
    ensures Values(Lowered(list), name) == Values(list, name)
  {
    if list != [] {
      ValuesLowered(list[1..], name);
      LowerTwice(list[0].name);
      assert Lowered(list)[1..] == Lowered(list[1..]);
    }
  }

  lemma H2Carries(o: Options, q: Request)
    requires H2Fields(o, q).Some?
    ensures CarriesH2(o, q, H2Fields(o, q).value)
  {
    forall name
      ensures Values(H2Fields(o, q).value, name) ==
              if Lower(name) in ["connection", "keep-alive", "proxy-connection", "transfer-encoding", "upgrade", "host"]
              then [] else Expected(o, q, name)
    {
      PathsAgree(o, q);
      hide Lower, H1Fields, H2Fields, Expected, Values;
      H1Values(o, q, name);
      ValuesLowered(Without(H1Fields(o, q).value, H1_ONLY), name);
      ValuesWithout(H1Fields(o, q).value, H1_ONLY, name);
    }
  }

  /** The names of the fields of one name, as they are written. */
  function Spelled(list: Fields, name: string): seq<string> {
    if list == [] then []
    else if Lower(list[0].name) == Lower(name) then [list[0].name] + Spelled(list[1..], name)
    else Spelled(list[1..], name)
  }

  lemma {:induction false} SpelledWithout(list: Fields, names: set<string>, name: string)
    requires Lower(name) !in names
    ensures Spelled(Without(list, names), name) == Spelled(list, name)
  {
    if list != [] {
      SpelledWithout(list[1..], names, name);
      if Lower(list[0].name) !in names {
        assert Without(list, names)[1..] == Without(list[1..], names);
      }
    }
  }

  lemma {:induction false} SpelledWith(list: Fields, name: string, value: string, other: string)
    requires Lower(other) != Lower(name)
    ensures Spelled(With(list, name, value), other) == Spelled(list, other)
  {
    if list == [] {
      assert [Field(name, value)][1..] == [];
    } else if Lower(list[0].name) == Lower(name) {
      var tail := Without(list[1..], {Lower(name)});
      assert ([Field(list[0].name, value)] + tail)[1..] == tail;
      SpelledWithout(list[1..], {Lower(name)}, other);
    } else {
      SpelledWith(list[1..], name, value, other);
    }
  }

  lemma {:induction false} SpelledPlace(f: Field, list: Fields, order: seq<string>, name: string)
    ensures Spelled(Place(f, list, order), name) == Spelled([f] + list, name)
  {
    assert ([f] + list)[1..] == list;
    if list != [] && Rank(order, f) > Rank(order, list[0]) {
      SpelledPlace(f, list[1..], order, name);
      assert ([f] + list[1..])[1..] == list[1..];
      var tail := Place(f, list[1..], order);
      assert ([list[0]] + tail)[1..] == tail;
    }
  }

  lemma {:induction false} SpelledReordered(list: Fields, order: seq<string>, name: string)
    ensures Spelled(Reordered(list, order), name) == Spelled(list, name)
  {
    if list != [] {
      SpelledReordered(list[1..], order, name);
      SpelledPlace(list[0], Reordered(list[1..], order), order, name);
      assert ([list[0]] + Reordered(list[1..], order))[1..] == Reordered(list[1..], order);
    }
  }

  lemma {:induction false} SpelledDefaulted(list: Fields, profile: Fields, name: string)
    requires Defaulted(list, profile).Some? && Values(list, name) != []
    ensures Spelled(Defaulted(list, profile).value, name) == Spelled(list, name)
    decreases |profile|
  {
    hide Lower, With, Has, Spelled;
    if profile != [] {
      var f := profile[0];
      HasValues(list, f.name);
      if Lower(f.name) == Lower(name) {
        SameName(list, f.name, name);
      }
      if Has(list, f.name) {
        SpelledDefaulted(list, profile[1..], name);
      } else {
        ValuesWith(list, f.name, f.value, name);
        SpelledWith(list, f.name, f.value, name);
        SpelledDefaulted(With(list, f.name, f.value), profile[1..], name);
      }
    }
  }

  lemma SpelledAccepting(o: Options, list: Fields, name: string)
    requires Values(list, name) != []
    ensures Spelled(Accepting(o, list), name) == Spelled(list, name)
  {
    SmallNames();
    hide Lower, With, Has, Spelled;
    var l := if Has(list, "accept") then list else With(list, "accept", "*/*");
    HasValues(list, "accept");
    HasValues(l, "accept-encoding");
    ValuesWith(list, "accept", "*/*", name);
    if Lower(name) == "accept" {
      SameName(list, name, "accept");
    } else {
      SpelledWith(list, "accept", "*/*", name);
    }
    if Lower(name) == "accept-encoding" {
      SameName(l, name, "accept-encoding");
    } else {
      SpelledWith(l, "accept-encoding", o.codings, name);
    }
    hide Values;
  }

  /** The caller's fields reach an HTTP/1.1 connection under the names as the caller wrote them. */
  lemma CallersSpelling(o: Options, q: Request, name: string)
    requires H1Fields(o, q).Some? && Values(q.headers, name) != []
    requires Lower(name) !in ["host", "connection", "transfer-encoding", "content-length", "cookie"]
    ensures Spelled(H1Fields(o, q).value, name) == Spelled(q.headers, name)
  {
    KnownNames();
    SmallNames();
    var defaulted := Defaulted(q.headers, o.profileHeaders).value;
    var list := Common(o, q).value;
    var persistence := if o.keepAlive then "keep-alive" else "close";
    var connected := With(list, "connection", persistence);
    var lean := Without(connected, {"transfer-encoding"});
    var hosted := With(Framed(lean, q), "Host", HostValue(q));
    var existing := Commas(Values(Accepting(o, defaulted), "cookie"));
    hide Lower, With, Without, Values, Spelled, Reordered, Defaulted, Accepting, Numeral, HostValue, Commas;
    SpelledDefaulted(q.headers, o.profileHeaders, name);
    DefaultedValues(q.headers, o.profileHeaders, name);
    SpelledAccepting(o, defaulted, name);
    SpelledWith(Accepting(o, defaulted), "cookie", if existing == "" then q.cookie else existing + "; " + q.cookie, name);
    SpelledWith(list, "connection", persistence, name);
    SpelledWithout(connected, {"transfer-encoding"}, name);
    SpelledWith(lean, "content-length", Numeral(BodyLength(q), 10), name);
    SpelledWithout(lean, {"content-length"}, name);
    SpelledWith(Framed(lean, q), "Host", HostValue(q), name);
    SpelledReordered(hosted, o.order, name);
  }

  /** Neither list is built exactly when some name is empty, the caller's or the profile's. */
  lemma RefusedExactlyWhen(o: Options, q: Request)
    ensures H1Fields(o, q).None? <==>
              || (exists k :: 0 <= k < |q.headers| && q.headers[k].name == "")
              || (exists k :: 0 <= k < |o.profileHeaders| && o.profileHeaders[k].name == "")
  {
    if AllNamed(q.headers) {
      DefaultedSome(q.headers, o.profileHeaders);
    }
  }

  lemma {:induction false} DefaultedSome(list: Fields, profile: Fields)
    requires AllNamed(list)
    ensures Defaulted(list, profile).None? <==> exists k :: 0 <= k < |profile| && profile[k].name == ""
    decreases |profile|
  {
    hide With;
    if profile != [] {
      var f := profile[0];
      if Has(list, f.name) {
        assert Lower(list[Find(list, f.name)].name) == Lower(f.name);
        assert f.name != "";
        DefaultedSome(list, profile[1..]);
      } else if f.name != "" {
        WithNamed(list, f.name, f.value);
        DefaultedSome(With(list, f.name, f.value), profile[1..]);
      }
      if k :| 0 <= k < |profile[1..]| && profile[1..][k].name == "" {
        assert profile[k + 1].name == "";
      }
      if k :| 0 <= k < |profile| && profile[k].name == "" {
        if k > 0 {
          assert profile[1..][k - 1].name == "";
        }
      }
    }
  }

  lemma {:induction false} WithNamed(list: Fields, name: string, value: string)
    requires AllNamed(list) && name != ""
    ensures AllNamed(With(list, name, value))
  {
    hide Lower;
    if list != [] {
      WithNamed(list[1..], name, value);
      WithoutNamed(list[1..], {Lower(name)});
    }
  }

  // ---------------------------------------------------------------- the list as the code edits it

  class OrderedHeaders {
    var list: Fields

    ghost predicate Valid()
      reads this
    {
      AllNamed(list)
    }

    constructor ()
      ensures Valid() && list == []
    {
      list := [];
    }

    /** Refused for an empty name. */
    method Append(name: string, value: string) returns (ok: bool)
      requires Valid()
      modifies this
      ensures Valid() && (ok <==> name != "")
      ensures list == if ok then old(list) + [Field(name, value)] else old(list)
    {
      ok := name != "";
      if ok {
        list := list + [Field(name, value)];
      }
    }

    method Set(name: string, value: string) returns (ok: bool)
      requires Valid()
      modifies this
      ensures Valid() && (ok <==> name != "")
      ensures list == if ok then With(old(list), name, value) else old(list)
    {
      hide Lower, With, Without;
      var at := Find(list, name);
      if at == |list| {
        WithAbsent(list, name, value);
        ok := Append(name, value);
        return;
      }
      WithPresent(list, name, value);
      var rest := Without(list[at + 1..], {Lower(name)});
      WithoutNamed(list[at + 1..], {Lower(name)});
      list := list[at := Field(list[at].name, value)];
      list := list[..at + 1] + rest;
      ok := true;
    }

    method Delete(name: string)
      requires Valid()
      modifies this
      ensures Valid() && list == Without(old(list), {Lower(name)})
    {
      WithoutNamed(list, {Lower(name)});
      list := Without(list, {Lower(name)});
    }

    method Reorder(order: seq<string>)
      requires Valid()
      modifies this
      ensures Valid() && list == Reordered(old(list), order)
    {
      var sorted: Fields := [];
      var i := |list|;
      assert list[i..] == [];
      while i > 0
        invariant 0 <= i <= |list| && list == old(list)
        invariant sorted == Reordered(list[i..], order) && AllNamed(sorted)
      {
        i := i - 1;
        assert list[i..] == [list[i]] + list[i + 1..];
        PlaceNamed(list[i], sorted, order);
        sorted := Place(list[i], sorted, order);
      }
      assert list[0..] == list;
      list := sorted;
    }
  }

  lemma {:induction false} WithAbsent(list: Fields, name: string, value: string)
    requires !Has(list, name)
    ensures With(list, name, value) == list + [Field(name, value)]
  {
    hide Lower, Without;
    if list != [] {
      WithAbsent(list[1..], name, value);
      assert list + [Field(name, value)] == [list[0]] + (list[1..] + [Field(name, value)]);
    }
  }

  /** The list with its field at `at` set and those of the same name behind it gone. */
  function SetAt(list: Fields, at: nat, name: string, value: string): Fields
    requires at < |list|
  {
    list[..at] + [Field(list[at].name, value)] + Without(list[at + 1..], {Lower(name)})
  }

  lemma {:induction false} WithPresent(list: Fields, name: string, value: string)
    requires Has(list, name)
    ensures With(list, name, value) == SetAt(list, Find(list, name), name, value)
  {
    hide Lower, Without;
    if Lower(list[0].name) != Lower(name) {
      WithPresent(list[1..], name, value);
      SetAtLater(list, Find(list[1..], name), name, value);
    }
  }

  lemma SetAtLater(list: Fields, at: nat, name: string, value: string)
    requires at + 1 < |list|
    ensures SetAt(list, 1 + at, name, value) == [list[0]] + SetAt(list[1..], at, name, value)
  {
    hide Lower, Without;
    assert list[..1 + at] == [list[0]] + list[1..][..at];
    assert list[1..][at + 1..] == list[1 + at + 1..];
  }

  lemma {:induction false} WithoutNamed(list: Fields, names: set<string>)
    requires AllNamed(list)
    ensures AllNamed(Without(list, names))
  {
    if list != [] {
      WithoutNamed(list[1..], names);
    }
  }

  lemma {:induction false} PlaceNamed(f: Field, list: Fields, order: seq<string>)
    requires AllNamed(list) && f.name != ""
    ensures AllNamed(Place(f, list, order))
  {
    hide Rank;
    if list != [] && Rank(order, f) > Rank(order, list[0]) {
      PlaceNamed(f, list[1..], order);
    }
  }

  /** `new OrderedHeaders(pairs)`. */
  method FromPairs(pairs: Fields) returns (headers: OrderedHeaders, ok: bool)
    ensures fresh(headers) && headers.Valid()
    ensures ok <==> AllNamed(pairs)
    ensures ok ==> headers.list == pairs
  {
    headers := new OrderedHeaders();
    for k := 0 to |pairs|
      invariant fresh(headers) && headers.Valid() && headers.list == pairs[..k]
    {
      ok := headers.Append(pairs[k].name, pairs[k].value);
      if !ok {
        return;
      }
      assert pairs[..k + 1] == pairs[..k] + [pairs[k]];
    }
    assert pairs[..|pairs|] == pairs;
    ok := true;
  }

  /** The first part of buildHeaders. */
  method StartH1Headers(o: Options, q: Request) returns (headers: OrderedHeaders, ok: bool)
    ensures fresh(headers) && headers.Valid()
    ensures ok <==> Common(o, q).Some?
    ensures ok ==> headers.list == Common(o, q).value
  {
    hide Lower, With;
    headers, ok := FromPairs(q.headers);
    if !ok {
      return;
    }
    for k := 0 to |o.profileHeaders|
      invariant fresh(headers) && headers.Valid() && Common(o, q) == CommonFrom(o, q, headers.list, k)
    {
      var f := o.profileHeaders[k];
      assert o.profileHeaders[k..][1..] == o.profileHeaders[k + 1..];
      if !Has(headers.list, f.name) {
        ok := headers.Set(f.name, f.value);
        if !ok {
          return;
        }
      }
    }
    if !Has(headers.list, "accept") {
      ok := headers.Set("accept", "*/*");
    }
    if !Has(headers.list, "accept-encoding") && o.decompresses {
      ok := headers.Set("accept-encoding", o.codings);
    }
    if q.cookie != "" {
      var existing := Commas(Values(headers.list, "cookie"));
      ok := headers.Set("cookie", if existing == "" then q.cookie else existing + "; " + q.cookie);
    }
    ok := true;
  }

  /** The first part of buildH2Request, which the source writes a second time. */
  method StartH2Headers(o: Options, q: Request) returns (headers: OrderedHeaders, ok: bool)
    ensures fresh(headers) && headers.Valid()
    ensures ok <==> Common(o, q).Some?
    ensures ok ==> headers.list == Common(o, q).value
  {
    hide Lower, With;
    headers, ok := FromPairs(q.headers);
    if !ok {
      return;
    }
    for k := 0 to |o.profileHeaders|
      invariant fresh(headers) && headers.Valid() && Common(o, q) == CommonFrom(o, q, headers.list, k)
    {
      var f := o.profileHeaders[k];
      assert o.profileHeaders[k..][1..] == o.profileHeaders[k + 1..];
      if !Has(headers.list, f.name) {
        ok := headers.Set(f.name, f.value);
        if !ok {
          return;
        }
      }
    }
    if !Has(headers.list, "accept") {
      ok := headers.Set("accept", "*/*");
    }
    if !Has(headers.list, "accept-encoding") && o.decompresses {
      ok := headers.Set("accept-encoding", o.codings);
    }
    if q.cookie != "" {
      var existing := Commas(Values(headers.list, "cookie"));
      ok := headers.Set("cookie", if existing == "" then q.cookie else existing + "; " + q.cookie);
    }
    ok := true;
  }

  /** What is still to come once the first k profile headers have been seen to. */
  ghost function CommonFrom(o: Options, q: Request, list: Fields, k: nat): Option<Fields>
    requires k <= |o.profileHeaders|
  {
    match Defaulted(list, o.profileHeaders[k..])
    case None => None
    case Some(list') => Some(WithCookie(Accepting(o, list'), q.cookie))
  }

  method DeclareLength(headers: OrderedHeaders, q: Request)
    requires headers.Valid()
    modifies headers
    ensures headers.Valid() && headers.list == Framed(old(headers.list), q)
  {
    var ok: bool;
    KnownNames();
    hide Lower, With, Without;
    match q.body
    case Some(body) =>
      ok := headers.Set("content-length", Numeral(|body|, 10));
    case None =>
      if q.method_ in ["POST", "PUT", "PATCH"] {
        ok := headers.Set("content-length", "0");
        assert Numeral(0, 10) == "0";
      } else {
        headers.Delete("content-length");
      }
  }

  method BuildHeaders(o: Options, q: Request) returns (r: Option<Fields>)
    ensures r == H1Fields(o, q)
    ensures r.Some? ==> CarriesH1(o, q, r.value) && InOrder(r.value, o.order)
  {
    if H1Fields(o, q).Some? {
      H1Carries(o, q);
    }
    hide CarriesH1, InOrder;
    KnownNames();
    hide Lower, With, Without, Common, Framed;
    var headers, ok := StartH1Headers(o, q);
    if !ok {
      return None;
    }
    ok := headers.Set("connection", if o.keepAlive then "keep-alive" else "close");
    headers.Delete("transfer-encoding");
    DeclareLength(headers, q);
    ok := headers.Set("Host", HostValue(q));
    headers.Reorder(o.order);
    r := Some(headers.list);
  }

  function Among(names: seq<string>): set<string> {
    if names == [] then {} else Among(names[..|names| - 1]) + {names[|names| - 1]}
  }

  lemma AmongThree(names: seq<string>, a: string, b: string, c: string)
    ensures Among(names + [a, b, c]) == Among(names) + {a, b, c}
  {
    AmongMore(names, a);
    AmongMore(names + [a], b);
    AmongMore(names + [a] + [b], c);
    assert names + [a] + [b] + [c] == names + [a, b, c];
  }

  lemma AmongSix(a: string, b: string, c: string, d: string, e: string, f: string)
    ensures Among([a, b, c, d, e, f]) == {a, b, c, d, e, f}
  {
    AmongThree([], a, b, c);
    AmongThree([a, b, c], d, e, f);
    assert [] + [a, b, c] == [a, b, c] && [a, b, c] + [d, e, f] == [a, b, c, d, e, f];
  }

  lemma AmongMore(names: seq<string>, name: string)
    ensures Among(names + [name]) == Among(names) + {name}
  {
    assert (names + [name])[..|names|] == names;
  }

  lemma AmongNone()
    ensures Among([]) == {}
  {
  }

  lemma SixLower()
    ensures forall k | 0 <= k < 6 ::
              var name := ["connection", "keep-alive", "proxy-connection", "transfer-encoding", "upgrade", "host"][k];
              Lower(name) == name
  {
  }

  method StripForH2(headers: OrderedHeaders)
    requires headers.Valid()
    modifies headers
    ensures headers.Valid() && headers.list == Without(old(headers.list), H1_ONLY)
  {
    var names := ["connection", "keep-alive", "proxy-connection", "transfer-encoding", "upgrade", "host"];
    SixLower();
    hide Lower;
    AmongSix(names[0], names[1], names[2], names[3], names[4], names[5]);
    assert Among(names) == H1_ONLY;
    hide H1_ONLY, Among;
    WithoutNothing(headers.list);
    AmongNone();
    for k := 0 to |names|
      invariant headers.Valid() && headers.list == Without(old(headers.list), Among(names[..k]))
    {
      WithoutTwice(old(headers.list), Among(names[..k]), {names[k]});
      AmongMore(names[..k], names[k]);
      assert names[..k + 1] == names[..k] + [names[k]];
      headers.Delete(names[k]);
    }
    assert names[..|names|] == names;
  }

  lemma {:induction false} WithoutNothing(list: Fields)
    ensures Without(list, {}) == list
  {
    if list != [] {
      WithoutNothing(list[1..]);
    }
  }

  method BuildH2Request(o: Options, q: Request) returns (authority: string, r: Option<Fields>)
    ensures r == H2Fields(o, q)
    ensures authority == if (q.secure && q.port == 443) || (!q.secure && q.port == 80) then q.hostname
                         else q.hostname + ":" + Numeral(q.port, 10)
    ensures r.Some? ==> CarriesH2(o, q, r.value)
  {
    if H2Fields(o, q).Some? {
      H2Carries(o, q);
    }
    hide CarriesH2;
    authority := if q.port == (if q.secure then 443 else 80) then q.hostname
                 else q.hostname + ":" + Numeral(q.port, 10);
    var headers, ok := StartH2Headers(o, q);
    if !ok {
      return authority, None;
    }
    StripForH2(headers);
    DeclareLength(headers, q);
    headers.Reorder(o.order);
    r := Some(Lowered(headers.list));
  }
}
