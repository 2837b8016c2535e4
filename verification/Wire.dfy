/** `serializeRequestHead` of src/http1/request.js against a reader that frames requests by
    Content-Length alone (section 6 of RFC 9112).  Octets are characters up to 255. */
module Wire {
  import opened Wrappers
  import opened Text
  import opened Headers
  import opened HeaderPaths
  import HR = HeadReader

  // ---------------------------------------------------------------- writing

  predicate TargetText(s: string) {
    s != "" && forall c <- s :: '!' <= c <= '~'
  }

  predicate Blank(c: char) {
    c == ' ' || c == '\t'
  }

  function TrimFront(s: string): string {
    if s != "" && Blank(s[0]) then TrimFront(s[1..]) else s
  }

  function TrimBack(s: string): string {
    if s != "" && Blank(s[|s| - 1]) then TrimBack(s[..|s| - 1]) else s
  }

  function Trim(s: string): string {
    TrimBack(TrimFront(s))
  }

  predicate SendableField(f: Field) {
    HR.Token(f.name) && HR.FieldText(f.value)
  }

  function FieldLines(fields: Fields): string {
    if fields == [] then ""
    else fields[0].name + ": " + Trim(fields[0].value) + "\r\n" + FieldLines(fields[1..])
  }

  /** The head on the wire, or nothing when some part of it is not fit to be sent. */
  function SerialiseHead(method_: string, target: string, fields: Fields): Option<string> {
    if HR.Token(method_) && TargetText(target) && (forall k | 0 <= k < |fields| :: SendableField(fields[k]))
    then Some(method_ + " " + target + " HTTP/1.1\r\n" + FieldLines(fields) + "\r\n")
    else None
  }

  /** All that is written for one request, or nothing. */
  function Written(o: Options, q: Request, target: string): Option<string> {
    match H1Fields(o, q)
    case None => None
    case Some(fields) =>
      match SerialiseHead(q.method_, target, fields)
      case None => None
      case Some(head) => Some(match q.body case None => head case Some(body) => head + body)
  }

  // ---------------------------------------------------------------- reading

  datatype Message = Message(method_: string, target: string, fields: Fields, body: string)

  /** The text before the first c and the text behind it. */
  function SplitAt(s: string, c: char): (r: Option<(string, string)>)
    ensures r.Some? ==> |r.value.0| + |r.value.1| + 1 == |s|
  {
    if s == "" then None
    else if s[0] == c then Some(("", s[1..]))
    else
      match SplitAt(s[1..], c)
      case None => None
      case Some((before, behind)) => Some(([s[0]] + before, behind))
  }

  function CutLine(s: string): (r: Option<(string, string)>)
    ensures r.Some? ==> |r.value.1| < |s|
  {
    match SplitAt(s, '\r')
    case None => None
    case Some((line, rest)) => if rest != "" && rest[0] == '\n' then Some((line, rest[1..])) else None
  }

  function ReadFields(s: string): (r: Option<(Fields, string)>)
    ensures r.Some? ==> |r.value.1| < |s|
    decreases |s|
  {
    match CutLine(s)
    case None => None
    case Some((line, rest)) =>
      if line == "" then Some(([], rest))
      else
        match SplitAt(line, ':')
        case None => None
        case Some((name, value)) =>
          match ReadFields(rest)
          case None => None
          case Some((more, rest')) => Some(([Field(name, Trim(value))] + more, rest'))
  }

  predicate Decimal(s: string) {
    s != "" && forall c <- s :: '0' <= c <= '9'
  }

  /** How long the body is; None if that cannot be told. */
  function DeclaredLength(fields: Fields): Option<nat> {
    var lengths := Values(fields, "content-length");
    if Values(fields, "transfer-encoding") != [] then None
    else if lengths == [] then Some(0)
    else if |lengths| == 1 && Decimal(lengths[0]) then Some(Value(lengths[0], 10))
    else None
  }

  function ReadMessage(s: string): (r: Option<(Message, string)>)
    ensures r.Some? ==> |r.value.1| < |s|
  {
    match SplitAt(s, ' ')
    case None => None
    case Some((method_, s1)) =>
      match SplitAt(s1, ' ')
      case None => None
      case Some((target, s2)) =>
        match CutLine(s2)
        case None => None
        case Some((version, s3)) =>
          if version != "HTTP/1.1" then None else ReadRest(method_, target, s3)
  }

  function ReadRest(method_: string, target: string, s: string): (r: Option<(Message, string)>)
    ensures r.Some? ==> |r.value.1| < |s|
  {
    match ReadFields(s)
    case None => None
    case Some((fields, rest)) =>
      match DeclaredLength(fields)
      case None => None
      case Some(n) =>
        if n > |rest| then None else Some((Message(method_, target, fields, rest[..n]), rest[n..]))
  }

  function ReadAll(s: string): Option<seq<Message>>
    decreases |s|
  {
    if s == "" then Some([])
    else
      match ReadMessage(s)
      case None => None
      case Some((m, rest)) =>
        match ReadAll(rest)
        case None => None
        case Some(more) => Some([m] + more)
  }

  // ---------------------------------------------------------------- what is written is read back

  lemma {:induction false} SplitHere(a: string, c: char, x: string)
    requires c !in a
    ensures SplitAt(a + [c] + x, c) == Some((a, x))
  {
    var s := a + [c] + x;
    if a == "" {
      assert s[0] == c && s[1..] == x;
    } else {
      assert s[0] == a[0] && s[1..] == a[1..] + [c] + x;
      SplitHere(a[1..], c, x);
      assert a == [a[0]] + a[1..];
    }
  }

  lemma LineHere(line: string, x: string)
    requires '\r' !in line
    ensures CutLine(line + "\r\n" + x) == Some((line, x))
  {
    assert line + "\r\n" + x == line + ['\r'] + ("\n" + x);
    SplitHere(line, '\r', "\n" + x);
    assert ("\n" + x)[1..] == x;
  }

  lemma {:induction false} TrimFrontPlain(s: string)
    ensures TrimFront(s) != "" ==> !Blank(TrimFront(s)[0])
    ensures forall c <- TrimFront(s) :: c in s
  {
    if s != "" && Blank(s[0]) {
      TrimFrontPlain(s[1..]);
    }
  }

  lemma {:induction false} TrimBackPlain(s: string)
    ensures TrimBack(s) != "" ==> !Blank(TrimBack(s)[|TrimBack(s)| - 1])
    ensures s != "" && !Blank(s[0]) ==> TrimBack(s) != "" && TrimBack(s)[0] == s[0]
    ensures forall c <- TrimBack(s) :: c in s
  {
    if s != "" && Blank(s[|s| - 1]) {
      TrimBackPlain(s[..|s| - 1]);
    }
  }

  lemma TrimmedStays(s: string)
    requires s != "" ==> !Blank(s[0]) && !Blank(s[|s| - 1])
    ensures Trim(s) == s
  {
  }

  /** A trimmed value comes back from behind the colon and the space it is written after. */
  lemma TrimAgain(s: string)
    ensures Trim(" " + Trim(s)) == Trim(s) == Trim(Trim(s))
    ensures forall c <- Trim(s) :: c in s
  {
    TrimFrontPlain(s);
    TrimBackPlain(TrimFront(s));
    TrimmedStays(Trim(s));
    assert (" " + Trim(s))[1..] == Trim(s);
  }

  function TrimAll(fields: Fields): Fields {
    if fields == [] then [] else [Field(fields[0].name, Trim(fields[0].value))] + TrimAll(fields[1..])
  }

  lemma TokenIsPlain(s: string)
    requires HR.Token(s)
    ensures '\r' !in s && ':' !in s && ' ' !in s && s != ""
  {
    assert !HR.TokenChar('\r') && !HR.TokenChar(':') && !HR.TokenChar(' ');
  }

  lemma FieldHere(f: Field, x: string)
    requires SendableField(f)
    ensures
      var line := f.name + ": " + Trim(f.value);
      && line != "" && CutLine(line + "\r\n" + x) == Some((line, x))
      && SplitAt(line, ':') == Some((f.name, " " + Trim(f.value)))
  {
    var line := f.name + ": " + Trim(f.value);
    TokenIsPlain(f.name);
    TrimAgain(f.value);
    assert forall c <- f.value :: c != '\r';
    hide HR.Token, Trim, CutLine;
    assert '\r' !in line;
    LineHere(line, x);
    assert line == f.name + [':'] + (" " + Trim(f.value));
    SplitHere(f.name, ':', " " + Trim(f.value));
  }

  lemma {:induction false} FieldsHere(fields: Fields, x: string)
    requires forall k | 0 <= k < |fields| :: SendableField(fields[k])
    ensures ReadFields(FieldLines(fields) + "\r\n" + x) == Some((TrimAll(fields), x))
  {
    hide SendableField, CutLine, SplitAt, Trim;
    var s := FieldLines(fields) + "\r\n" + x;
    if fields == [] {
      assert s == "" + "\r\n" + x;
      LineHere("", x);
    } else {
      var line := fields[0].name + ": " + Trim(fields[0].value);
      var rest := FieldLines(fields[1..]) + "\r\n" + x;
      assert s == line + "\r\n" + rest;
      FieldHere(fields[0], rest);
      TrimAgain(fields[0].value);
      FieldsHere(fields[1..], x);
    }
  }

  function TrimEach(values: seq<string>): seq<string> {
    if values == [] then [] else [Trim(values[0])] + TrimEach(values[1..])
  }

  lemma {:induction false} ValuesTrimmed(fields: Fields, name: string)
    ensures Values(TrimAll(fields), name) == TrimEach(Values(fields, name))
  {
    hide Trim;
    if fields != [] {
      ValuesTrimmed(fields[1..], name);
      assert TrimAll(fields)[1..] == TrimAll(fields[1..]);
      if Lower(fields[0].name) == Lower(name) {
        assert Values(fields, name)[1..] == Values(fields[1..], name);
      }
    }
  }

  lemma NumeralIsDecimal(n: nat)
    ensures Decimal(Numeral(n, 10)) && Trim(Numeral(n, 10)) == Numeral(n, 10)
  {
    NumeralDigits(n, 10);
    var s := Numeral(n, 10);
    forall c <- s ensures '0' <= c <= '9' {
      assert DigitOf(c, 10);
    }
    assert s[0] in s && s[|s| - 1] in s;
    TrimmedStays(s);
  }

  /** The length read is that of the body, whatever headers the caller asked for. */
  lemma LengthHere(o: Options, q: Request)
    requires H1Fields(o, q).Some?
    ensures DeclaredLength(TrimAll(H1Fields(o, q).value)) == Some(BodyLength(q))
  {
    hide H1Fields, Decimal, Trim;
    var list := H1Fields(o, q).value;
    DeclaresItsBody(o, q);
    ValuesTrimmed(list, "content-length");
    ValuesTrimmed(list, "transfer-encoding");
    NumeralIsDecimal(BodyLength(q));
    ValueOfNumeral(BodyLength(q), 10);
    hide Numeral, Value;
    var n := Numeral(BodyLength(q), 10);
    assert [n][1..] == [];
    assert TrimEach([n]) == [n];
  }

  function Body(q: Request): string {
    match q.body case None => "" case Some(body) => body
  }

  /** What a reader is to make of a request. */
  function Meant(o: Options, q: Request, target: string): Message {
    Message(q.method_, target, match H1Fields(o, q) case None => [] case Some(list) => TrimAll(list), Body(q))
  }

  lemma HeadHere(method_: string, target: string, rest: string)
    requires HR.Token(method_) && TargetText(target)
    ensures ReadMessage(method_ + " " + target + " HTTP/1.1\r\n" + rest) == ReadRest(method_, target, rest)
  {
    TokenIsPlain(method_);
    assert ' ' !in target;
    hide SplitAt, CutLine, ReadRest, HR.Token, TargetText;
    var s2 := "HTTP/1.1" + "\r\n" + rest;
    var s1 := target + [' '] + s2;
    assert method_ + " " + target + " HTTP/1.1\r\n" + rest == method_ + [' '] + s1;
    SplitHere(method_, ' ', s1);
    SplitHere(target, ' ', s2);
    LineHere("HTTP/1.1", rest);
  }

  lemma MessageHere(o: Options, q: Request, target: string, more: string)
    requires Written(o, q, target).Some?
    ensures H1Fields(o, q).Some?
    ensures ReadMessage(Written(o, q, target).value + more) == Some((Meant(o, q, target), more))
    ensures Written(o, q, target).value != ""
  {
    hide H1Fields, ReadMessage, HR.Token, TargetText, SendableField, ReadFields, DeclaredLength;
    var fields := H1Fields(o, q).value;
    var body := Body(q);
    var rest := FieldLines(fields) + "\r\n" + (body + more);
    assert Written(o, q, target).value + more == q.method_ + " " + target + " HTTP/1.1\r\n" + rest;
    HeadHere(q.method_, target, rest);
    FieldsHere(fields, body + more);
    LengthHere(o, q);
    assert (body + more)[..|body|] == body && (body + more)[|body|..] == more;
  }

  /** A request is written exactly when its headers can be built and its method, target, names and values
      have no character that HTTP/1.1 does not allow there. */
  lemma WrittenExactlyWhen(o: Options, q: Request, target: string)
    ensures Written(o, q, target).Some? <==>
              && H1Fields(o, q).Some?
              && q.method_ != "" && (forall c <- q.method_ :: HR.TokenChar(c))
              && target != "" && (forall c <- target :: '!' <= c <= '~')
              && forall k | 0 <= k < |H1Fields(o, q).value| ::
                   var f := H1Fields(o, q).value[k];
                   && f.name != "" && (forall c <- f.name :: HR.TokenChar(c))
                   && forall c <- f.value :: c == '\t' || ' ' <= c <= '~' || 0x80 as char <= c <= 0xff as char
  {
    hide H1Fields, HR.TokenChar;
  }

  /** One request on a connection. */
  datatype Turn = Turn(o: Options, q: Request, target: string)

  predicate Sendable(t: Turn) {
    Written(t.o, t.q, t.target).Some?
  }

  function Octets(t: Turn): string {
    match Written(t.o, t.q, t.target) case None => "" case Some(octets) => octets
  }

  function Stream(turns: seq<Turn>): string {
    if turns == [] then "" else Octets(turns[0]) + Stream(turns[1..])
  }

  function MeantAll(turns: seq<Turn>): seq<Message> {
    if turns == [] then [] else [MeantBy(turns[0])] + MeantAll(turns[1..])
  }

  function MeantBy(t: Turn): Message {
    Meant(t.o, t.q, t.target)
  }

  lemma TurnHere(t: Turn, more: string)
    requires Sendable(t)
    ensures Octets(t) != "" && ReadMessage(Octets(t) + more) == Some((MeantBy(t), more))
  {
    hide ReadMessage, Meant, Written, H1Fields;
    MessageHere(t.o, t.q, t.target, more);
  }

  lemma ReadAllStep(s: string, m: Message, rest: string)
    requires s != "" && ReadMessage(s) == Some((m, rest)) && ReadAll(rest).Some?
    ensures ReadAll(s) == Some([m] + ReadAll(rest).value)
  {
    hide ReadMessage;
  }

  /** Any requests written one after the other on one connection, for any caller headers and any
      bodies, are split back into exactly those requests. */
  lemma {:induction false} StreamsSplit(turns: seq<Turn>)
    requires forall k | 0 <= k < |turns| :: Sendable(turns[k])
    ensures ReadAll(Stream(turns)) == Some(MeantAll(turns))
  {
    if turns != [] {
      hide ReadMessage, ReadAll, MeantBy, Octets, Sendable;
      TurnHere(turns[0], Stream(turns[1..]));
      StreamsSplit(turns[1..]);
      ReadAllStep(Stream(turns), MeantBy(turns[0]), Stream(turns[1..]));
    }
  }
}
