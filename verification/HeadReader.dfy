/** When does a failed head read report `got: 0`?  `serverNeverSawIt` (src/client.js) takes that as
    proof that not one response byte came back and lets the request be sent again. */
module HeadReader {
  import opened Wrappers

  /** One line off the front of what the peer sent before it stopped: the line without its CRLF, what
      follows it, and what is left of the budget shared by the whole head. */
  datatype LineResult =
    | Line(text: string, rest: string, left: nat)
    | LineEof(got: nat)
    | LineRefused

  function FirstLf(s: string): (i: nat)
    ensures i <= |s|
    ensures i < |s| ==> s[i] == '\n'
    ensures forall j | 0 <= j < i :: s[j] != '\n'
  {
    if s == "" || s[0] == '\n' then 0 else 1 + FirstLf(s[1..])
  }

  function ReadLine(s: string, budget: nat): LineResult {
    var i := FirstLf(s);
    if i == |s| then
      if |s| > budget then LineRefused else LineEof(|s|)
    else if i + 1 > budget || i == 0 || s[i - 1] != '\r' then LineRefused
    else Line(s[..i - 1], s[i + 1..], budget - (i + 1))
  }

  /** A line ends at the first line feed, which must stand behind a carriage return and within the budget;
      without one, what there is has an end only if it fits. */
  lemma LineExactlyWhen(s: string, budget: nat, i: nat)
    requires i <= |s| && (i < |s| ==> s[i] == '\n') && forall j | 0 <= j < i :: s[j] != '\n'
    ensures ReadLine(s, budget) ==
            if i == |s| then (if |s| <= budget then LineEof(|s|) else LineRefused)
            else if i > 0 && s[i - 1] == '\r' && i < budget then Line(s[..i - 1], s[i + 1..], budget - i - 1)
            else LineRefused
  {
    LfAt(s, i);
  }

  predicate Digit(c: char) {
    '0' <= c <= '9'
  }

  predicate FieldText(s: string) {
    forall c <- s :: c == '\t' || ' ' <= c <= '~' || 0x80 as char <= c <= 0xff as char
  }

  predicate TokenChar(c: char) {
    Digit(c) || 'a' <= c <= 'z' || 'A' <= c <= 'Z' || c in "!#$%&'*+-.^_`|~"
  }

  predicate Token(s: string) {
    s != "" && forall c <- s :: TokenChar(c)
  }

  /** The status code of a well-formed status line. */
  function StatusOf(line: string): Option<nat> {
    if |line| >= 12 && (line[..9] == "HTTP/1.0 " || line[..9] == "HTTP/1.1 ")
       && Digit(line[9]) && Digit(line[10]) && Digit(line[11])
       && (|line| == 12 || (line[12] == ' ' && FieldText(line[13..])))
    then
      var code := (line[9] - '0') as nat * 100 + (line[10] - '0') as nat * 10 + (line[11] - '0') as nat;
      if code < 100 then None else Some(code)
    else None
  }

  function FirstColon(s: string): (i: nat)
    ensures i <= |s|
  {
    if s == "" || s[0] == ':' then 0 else 1 + FirstColon(s[1..])
  }

  predicate HeaderLine(line: string) {
    var i := FirstColon(line);
    && line != "" && line[0] != ' ' && line[0] != '\t'
    && 0 < i < |line| && Token(line[..i]) && FieldText(line[i + 1..])
  }

  datatype Outcome =
    | Head(status: nat, rest: string)
    | Eof(got: nat)
    | Refused

  /** readResponseHead over everything the peer sent.  `status` is None between heads, and the code of
      the head being read inside one.  Interim heads are skipped; 101 is refused. */
  function ReadHead(s: string, budget: nat, status: Option<nat>): Outcome
    decreases |s|
  {
    match ReadLine(s, budget)
    case LineEof(got) => Eof(got)
    case LineRefused => Refused
    case Line(line, rest, left) =>
      match status
      case None => if StatusOf(line).None? then Refused else ReadHead(rest, left, StatusOf(line))
      case Some(code) =>
        if line != "" then
          if HeaderLine(line) then ReadHead(rest, left, status) else Refused
        else if code == 101 then Refused
        else if code < 200 then ReadHead(rest, left, None)
        else Head(code, rest)
  }

  /** Lines as they come, each with its end. */
  function Lines(lines: seq<string>): string {
    if lines == [] then "" else lines[0] + "\r\n" + Lines(lines[1..])
  }

  lemma FieldTextIsOneLine(s: string)
    requires FieldText(s)
    ensures '\n' !in s
  {
  }

  lemma HeaderLineIsOne(line: string)
    requires HeaderLine(line)
    ensures forall j | 0 <= j < |line| :: line[j] != '\n'
  {
    var i := FirstColon(line);
    ColonAt(line);
    FieldTextIsOneLine(line[i + 1..]);
    assert !TokenChar('\n');
    forall j | 0 <= j < |line| ensures line[j] != '\n' {
      if j < i {
        assert line[j] == line[..i][j];
      } else if j > i {
        assert line[j] == line[i + 1..][j - i - 1];
      }
    }
  }

  lemma {:induction false} ColonAt(s: string)
    ensures FirstColon(s) < |s| ==> s[FirstColon(s)] == ':'
  {
    if s != "" && s[0] != ':' {
      ColonAt(s[1..]);
    }
  }

  lemma NextLine(line: string, more: string, budget: nat)
    requires (forall j | 0 <= j < |line| :: line[j] != '\n') && |line| + 2 <= budget
    ensures ReadLine(line + "\r\n" + more, budget) == Line(line, more, budget - |line| - 2)
  {
    var s := line + "\r\n" + more;
    LfAt(s, |line| + 1);
    assert s[..|line|] == line && s[|line| + 2..] == more;
  }

  /** Inside a head of that status: well-formed header lines are passed over, and the empty line ends it.
      What is behind it is left unread. */
  lemma {:induction false} HeadEnds(lines: seq<string>, more: string, budget: nat, code: nat)
    requires (forall k | 0 <= k < |lines| :: HeaderLine(lines[k])) && |Lines(lines)| + 2 <= budget
    ensures ReadHead(Lines(lines) + "\r\n" + more, budget, Some(code)) ==
            if code == 101 then Refused
            else if code < 200 then ReadHead(more, budget - |Lines(lines)| - 2, None)
            else Head(code, more)
    decreases |lines|
  {
    hide HeaderLine, ReadLine;
    if lines == [] {
      NextLine("", more, budget);
      assert "" + "\r\n" + more == Lines(lines) + "\r\n" + more;
    } else {
      var rest := Lines(lines[1..]) + "\r\n" + more;
      HeaderLineIsOne(lines[0]);
      NextLine(lines[0], rest, budget);
      NotEmpty(lines[0]);
      assert Lines(lines) + "\r\n" + more == lines[0] + "\r\n" + rest;
      HeadEnds(lines[1..], more, budget - |lines[0]| - 2, code);
    }
  }

  lemma NotEmpty(line: string)
    requires HeaderLine(line)
    ensures line != ""
  {
  }

  /** A whole head within the budget is read to its end, with the status of its first line: an interim one
      is passed over, 101 is refused, and after any other the body is left unread. */
  lemma WholeHeadIsRead(first: string, lines: seq<string>, more: string, budget: nat)
    requires StatusOf(first).Some? && (forall j | 0 <= j < |first| :: first[j] != '\n')
    requires forall k | 0 <= k < |lines| :: HeaderLine(lines[k])
    requires |first| + 2 + |Lines(lines)| + 2 <= budget
    ensures
      var code := StatusOf(first).value;
      ReadHead(first + "\r\n" + Lines(lines) + "\r\n" + more, budget, None) ==
      if code == 101 then Refused
      else if code < 200 then ReadHead(more, budget - |first| - 2 - |Lines(lines)| - 2, None)
      else Head(code, more)
  {
    hide HeaderLine, ReadLine, StatusOf;
    var rest := Lines(lines) + "\r\n" + more;
    assert first + "\r\n" + Lines(lines) + "\r\n" + more == first + "\r\n" + rest;
    NextLine(first, rest, budget);
    HeadEnds(lines, more, budget - |first| - 2, StatusOf(first).value);
  }

  /** The part of s after its last line feed. */
  function LastLine(s: string): string {
    if s == "" || s[|s| - 1] == '\n' then "" else LastLine(s[..|s| - 1]) + [s[|s| - 1]]
  }

  lemma {:induction false} LastLineAfter(s: string, i: nat)
    requires i < |s| && s[i] == '\n'
    ensures LastLine(s) == LastLine(s[i + 1..])
    decreases |s|
  {
    if i + 1 < |s| && s[|s| - 1] != '\n' {
      var short := s[..|s| - 1];
      LastLineAfter(short, i);
      assert short[i + 1..] == s[i + 1..][..|s[i + 1..]| - 1];
    }
  }

  lemma {:induction false} LastLineWhole(s: string)
    requires forall j | 0 <= j < |s| :: s[j] != '\n'
    ensures LastLine(s) == s
  {
    if s != "" {
      LastLineWhole(s[..|s| - 1]);
      assert s == s[..|s| - 1] + [s[|s| - 1]];
    }
  }

  /** The count reported is that of the unfinished line only, not of what the peer sent. */
  lemma {:induction false} GotIsLastLine(s: string, budget: nat, status: Option<nat>)
    requires ReadHead(s, budget, status).Eof?
    ensures ReadHead(s, budget, status).got == |LastLine(s)|
    decreases |s|
  {
    match ReadLine(s, budget)
    case LineEof(_) =>
      LastLineWhole(s);
    case Line(line, rest, left) =>
      LastLineAfter(s, FirstLf(s));
      var next := match status
        case None => StatusOf(line)
        case Some(_) => if line != "" then status else None;
      GotIsLastLine(rest, left, next);
  }

  /** How the transport stopped: with an end that the record layer lets through, or cut, in which case
      the record layer fails with the bytes it had of the record it was reading. */
  datatype Ending = Clean | Cut(got: nat)

  datatype Failure = UnexpectedEof(got: nat) | TlsTruncated(got: nat)

  /** The failure of the head read when the peer sent s and stopped; None when it does not fail so. */
  function Failing(s: string, budget: nat, ending: Ending): Option<Failure> {
    match ReadHead(s, budget, None)
    case Eof(got) => Some(match ending case Clean => UnexpectedEof(got) case Cut(n) => TlsTruncated(n))
    case _ => None
  }

  predicate ServerNeverSawIt(failure: Failure) {
    failure == UnexpectedEof(0) || failure == TlsTruncated(0)
  }

  /** A peer that sent s and stopped so is taken not to have seen the request. */
  predicate CountsAsUnseen(s: string, budget: nat, ending: Ending) {
    var failure := Failing(s, budget, ending);
    failure.Some? && ServerNeverSawIt(failure.value)
  }

  /** The head read ends in what is taken as proof exactly when the head is incomplete and, on a clean
      end, what came is empty or ends a line, or, on a cut, the cut fell between two records or right
      after a record header.  With a cut, what had been received makes no difference. */
  lemma ProofExactlyWhen(s: string, budget: nat, ending: Ending)
    ensures
      CountsAsUnseen(s, budget, ending) <==>
        && ReadHead(s, budget, None).Eof?
        && (ending.Clean? ==> s == "" || s[|s| - 1] == '\n')
        && (ending.Cut? ==> ending.got == 0)
  {
    if ReadHead(s, budget, None).Eof? {
      GotIsLastLine(s, budget, None);
    }
  }

  /** The promised case: nothing came at all. */
  lemma NothingIsProof(budget: nat)
    ensures Failing("", budget, Clean) == Some(UnexpectedEof(0))
    ensures Failing("", budget, Cut(0)) == Some(TlsTruncated(0))
  {
  }

  lemma {:induction false} LfAt(s: string, i: nat)
    requires i <= |s| && (i < |s| ==> s[i] == '\n') && forall j | 0 <= j < i :: s[j] != '\n'
    ensures FirstLf(s) == i
  {
  }

  lemma WholeLine(line: string, budget: nat)
    requires (forall j | 0 <= j < |line| :: line[j] != '\n') && |line| + 2 <= budget
    ensures ReadLine(line + "\r\n", budget) == Line(line, "", budget - |line| - 2)
  {
    var s := line + "\r\n";
    LfAt(s, |line| + 1);
    assert s[..|line|] == line;
  }

  lemma PartLine(line: string, budget: nat)
    requires (forall j | 0 <= j < |line| :: line[j] != '\n') && |line| <= budget
    ensures ReadLine(line, budget) == LineEof(|line|)
  {
    LfAt(line, |line|);
  }

  /** A case that is not: the peer had begun to answer, and stopped after a whole status line, or in
      the middle of one with its transport cut between two records. */
  lemma StatusLineIsProofToo(line: string)
    requires (forall j | 0 <= j < |line| :: line[j] != '\n') && StatusOf(line).Some? && |line| + 2 <= 65536
    ensures Failing(line + "\r\n", 65536, Clean) == Some(UnexpectedEof(0))
    ensures Failing(line, 65536, Cut(0)) == Some(TlsTruncated(0))
  {
    hide StatusOf, ReadLine, HeaderLine;
    WholeLine(line, 65536);
    PartLine(line, 65536);
    PartLine("", 65536 - |line| - 2);
    assert ReadHead("", 65536 - |line| - 2, StatusOf(line)) == Eof(0);
  }
}
