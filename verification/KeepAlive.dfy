/** `wantsKeepAlive` of src/client.js: whether a response lets its connection be used again. */
module KeepAlive {
  import opened Headers
  import opened Text

  predicate White(c: char) {
    c == ' ' || c == '\t' || c == 0xa0 as char
  }

  function TrimLeft(s: string): string {
    if s != "" && White(s[0]) then TrimLeft(s[1..]) else s
  }

  function TrimRight(s: string): string {
    if s != "" && White(s[|s| - 1]) then TrimRight(s[..|s| - 1]) else s
  }

  /** `s.split(',')`. */
  function Split(s: string): (r: seq<string>)
    ensures r != []
  {
    if s == "" then [""] else Prepend(s[0], Split(s[1..]))
  }

  function Prepend(c: char, pieces: seq<string>): (r: seq<string>)
    requires pieces != []
    ensures r != []
  {
    if c == ',' then [""] + pieces else [[c] + pieces[0]] + pieces[1..]
  }

  /** Some piece between commas is the token, white space around it aside. */
  predicate Names(value: string, token: string) {
    exists k | 0 <= k < |Split(Lower(value))| :: TrimRight(TrimLeft(Split(Lower(value))[k])) == token
  }

  /** The values are those of all Connection fields; they are read joined into one. */
  function WantsKeepAlive(values: seq<string>, http10: bool): bool {
    var connection := Commas(values);
    if Names(connection, "close") then false
    else if http10 then Names(connection, "keep-alive")
    else true
  }

  lemma {:induction false} SplitConcat(a: string, b: string)
    ensures Split(a + "," + b) == Split(a) + Split(b)
  {
    if a == "" {
      assert (a + "," + b)[1..] == b;
    } else {
      SplitConcat(a[1..], b);
      assert (a + "," + b)[1..] == a[1..] + "," + b;
      PrependConcat(a[0], Split(a[1..]), Split(b));
      hide Prepend;
    }
  }

  lemma PrependConcat(c: char, x: seq<string>, y: seq<string>)
    requires x != []
    ensures Prepend(c, x + y) == Prepend(c, x) + y
  {
    assert (x + y)[1..] == x[1..] + y;
  }

  lemma LowerConcat(a: string, b: string)
    ensures Lower(a + ", " + b) == Lower(a) + "," + (" " + Lower(b))
  {
  }

  /** A space in front of a value goes to its first piece, where it is trimmed. */
  lemma SplitSpaced(s: string)
    ensures Split(" " + s) == [" " + Split(s)[0]] + Split(s)[1..]
    ensures forall piece :: TrimLeft(" " + piece) == TrimLeft(piece)
  {
    assert (" " + s)[1..] == s;
    forall piece ensures TrimLeft(" " + piece) == TrimLeft(piece) {
      assert (" " + piece)[1..] == piece;
    }
  }

  lemma NamesEither(a: string, b: string, token: string)
    ensures Names(a + ", " + b, token) <==> Names(a, token) || Names(b, token)
  {
    hide Lower, TrimRight, TrimLeft, Split;
    LowerConcat(a, b);
    SplitConcat(Lower(a), " " + Lower(b));
    SplitSpaced(Lower(b));
    var x, y, all := Split(Lower(a)), Split(Lower(b)), Split(Lower(a + ", " + b));
    assert |all| == |x| + |y|;
    forall k | 0 <= k < |x| ensures all[k] == x[k] {}
    forall k | 0 <= k < |y| ensures TrimLeft(all[|x| + k]) == TrimLeft(y[k]) {}
    if Names(a + ", " + b, token) {
      var k :| 0 <= k < |all| && TrimRight(TrimLeft(all[k])) == token;
      if k >= |x| {
        assert TrimRight(TrimLeft(y[k - |x|])) == token;
      }
    }
    if Names(b, token) {
      var k :| 0 <= k < |y| && TrimRight(TrimLeft(y[k])) == token;
      assert TrimRight(TrimLeft(all[|x| + k])) == token;
    }
  }

  lemma {:induction false} NamesAny(values: seq<string>, token: string)
    requires token != ""
    ensures Names(Commas(values), token) <==> exists k | 0 <= k < |values| :: Names(values[k], token)
  {
    if |values| == 0 {
      assert Split(Lower("")) == [""];
    } else if |values| > 1 {
      hide Names;
      NamesEither(values[0], Commas(values[1..]), token);
      NamesAny(values[1..], token);
      forall k | 0 <= k < |values[1..]| ensures values[1..][k] == values[k + 1] {}
    }
  }

  /** The pieces are what stands between the commas. */
  lemma {:induction false} SplitIs(s: string)
    ensures Join(Split(s), ',') == s && forall piece <- Split(s) :: ',' !in piece
  {
    if s != "" {
      SplitIs(s[1..]);
      PrependIs(s[0], Split(s[1..]));
      assert s == [s[0]] + s[1..];
    }
  }

  lemma PrependIs(c: char, pieces: seq<string>)
    requires pieces != [] && forall piece <- pieces :: ',' !in piece
    ensures Join(Prepend(c, pieces), ',') == [c] + Join(pieces, ',')
    ensures forall piece <- Prepend(c, pieces) :: ',' !in piece
  {
    var more := Prepend(c, pieces);
    if c == ',' {
      assert more[1..] == pieces;
    } else {
      assert more[1..] == pieces[1..];
    }
  }

  /** A trimmed text is the text without the white space at its two ends. */
  lemma TrimIs(s: string)
    ensures
      var t := TrimRight(TrimLeft(s));
      && (t != "" ==> !White(t[0]) && !White(t[|t| - 1]))
      && exists a, b :: s == a + t + b && (forall c <- a :: White(c)) && forall c <- b :: White(c)
  {
    var a := LeftOf(s);
    var b := RightOf(TrimLeft(s));
    assert s == a + TrimRight(TrimLeft(s)) + b;
  }

  lemma {:induction false} LeftOf(s: string) returns (a: string)
    ensures s == a + TrimLeft(s) && forall c <- a :: White(c)
    ensures TrimLeft(s) != "" ==> !White(TrimLeft(s)[0])
  {
    a := "";
    if s != "" && White(s[0]) {
      a := LeftOf(s[1..]);
      a := [s[0]] + a;
    }
  }

  lemma {:induction false} RightOf(s: string) returns (b: string)
    ensures s == TrimRight(s) + b && forall c <- b :: White(c)
    ensures TrimRight(s) != "" ==> !White(TrimRight(s)[|TrimRight(s)| - 1])
    ensures s != "" && !White(s[0]) ==> TrimRight(s) != "" && TrimRight(s)[0] == s[0]
  {
    b := "";
    if s != "" && White(s[|s| - 1]) {
      b := RightOf(s[..|s| - 1]);
      b := b + [s[|s| - 1]];
      assert s == s[..|s| - 1] + [s[|s| - 1]];
    }
  }

  lemma {:induction false} SplitLowered(s: string)
    ensures |Split(Lower(s))| == |Split(s)|
    ensures forall k | 0 <= k < |Split(s)| :: Split(Lower(s))[k] == Lower(Split(s)[k])
  {
    if s == "" {
      assert Lower(s) == "";
    } else {
      SplitLowered(s[1..]);
      assert Lower(s)[1..] == Lower(s[1..]);
      PrependLowered(s[0], Split(s[1..]), Split(Lower(s[1..])));
    }
  }

  lemma PrependLowered(c: char, pieces: seq<string>, lowered: seq<string>)
    requires pieces != [] && |lowered| == |pieces|
    requires forall k | 0 <= k < |pieces| :: lowered[k] == Lower(pieces[k])
    ensures |Prepend(LowerChar(c), lowered)| == |Prepend(c, pieces)|
    ensures forall k | 0 <= k < |Prepend(c, pieces)| :: Prepend(LowerChar(c), lowered)[k] == Lower(Prepend(c, pieces)[k])
  {
    if c != ',' {
      assert Lower([c] + pieces[0]) == [LowerChar(c)] + Lower(pieces[0]);
    }
  }

  lemma {:induction false} TrimLeftLowered(s: string)
    ensures TrimLeft(Lower(s)) == Lower(TrimLeft(s))
  {
    if s != "" && White(s[0]) {
      TrimLeftLowered(s[1..]);
      assert Lower(s)[1..] == Lower(s[1..]);
    }
  }

  lemma {:induction false} TrimRightLowered(s: string)
    ensures TrimRight(Lower(s)) == Lower(TrimRight(s))
  {
    if s != "" && White(s[|s| - 1]) {
      TrimRightLowered(s[..|s| - 1]);
      assert Lower(s)[..|s| - 1] == Lower(s[..|s| - 1]);
    }
  }

  /** A value names a token exactly when something that stands between its commas, without the white space
      around it, is that token in whatever case. */
  lemma NamesExactlyWhen(value: string, token: string)
    ensures Names(value, token) <==>
              exists k | 0 <= k < |Split(value)| :: Lower(TrimRight(TrimLeft(Split(value)[k]))) == token
  {
    SplitLowered(value);
    hide Lower, TrimLeft, TrimRight, Split;
    forall k | 0 <= k < |Split(value)|
      ensures TrimRight(TrimLeft(Split(Lower(value))[k])) == Lower(TrimRight(TrimLeft(Split(value)[k])))
    {
      TrimLeftLowered(Split(value)[k]);
      TrimRightLowered(TrimLeft(Split(value)[k]));
    }
  }

  /** A connection may be kept exactly when no Connection field says close and, for HTTP/1.0, some field
      says keep-alive, in whatever field, place or case it says so (section 9.3 of RFC 9112). */
  lemma KeepsExactlyWhen(values: seq<string>, http10: bool)
    ensures WantsKeepAlive(values, http10) <==>
              && (forall k | 0 <= k < |values| :: !Names(values[k], "close"))
              && (http10 ==> exists k | 0 <= k < |values| :: Names(values[k], "keep-alive"))
  {
    hide Names, Commas;
    NamesAny(values, "close");
    NamesAny(values, "keep-alive");
  }
}
