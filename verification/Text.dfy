/** Numerals, and cutting strings at separators. */
module Text {

  function Digit(d: nat): char
    requires d < 16
  {
    if d < 10 then '0' + d as char else 'a' + (d - 10) as char
  }

  /** `n.toString(base)`. */
  function Numeral(n: nat, base: nat): string
    requires 2 <= base <= 16
    decreases n
  {
    if n < base then [Digit(n)] else Numeral(n / base, base) + [Digit(n % base)]
  }

  predicate DigitOf(c: char, base: nat)
    requires base <= 16
  {
    exists d: nat | d < base :: Digit(d) == c
  }

  function DigitValue(c: char): (d: nat)
  {
    if '0' <= c <= '9' then (c - '0') as nat
    else if 'a' <= c <= 'f' then 10 + (c - 'a') as nat
    else 0
  }

  lemma DigitValues(d: nat)
    requires d < 16
    ensures DigitValue(Digit(d)) == d
  {
  }

  /** The number a numeral stands for. */
  function Value(s: string, base: nat): nat {
    if s == "" then 0 else Value(s[..|s| - 1], base) * base + DigitValue(s[|s| - 1])
  }

  lemma {:induction false} ValueOfNumeral(n: nat, base: nat)
    requires 2 <= base <= 16
    ensures Value(Numeral(n, base), base) == n
    decreases n
  {
    hide Value, DigitValue, Digit;
    DigitValues(n % base);
    if n < base {
      ValueOfNone(base);
      ValueOfMore("", Digit(n), base);
      assert "" + [Digit(n)] == Numeral(n, base);
      DivMod(n, base);
    } else {
      ValueOfNumeral(n / base, base);
      ValueOfMore(Numeral(n / base, base), Digit(n % base), base);
      DivMod(n, base);
    }
  }

  lemma DivMod(n: nat, base: nat)
    requires base > 0
    ensures n / base * base + n % base == n
    ensures n < base ==> n % base == n
  {
  }

  lemma ValueOfNone(base: nat)
    ensures Value("", base) == 0
  {
  }

  lemma ValueOfMore(s: string, c: char, base: nat)
    ensures Value(s + [c], base) == Value(s, base) * base + DigitValue(c)
  {
    assert (s + [c])[..|s|] == s;
  }

  lemma NumeralInjective(m: nat, n: nat, base: nat)
    requires 2 <= base <= 16 && Numeral(m, base) == Numeral(n, base)
    ensures m == n
  {
    ValueOfNumeral(m, base);
    ValueOfNumeral(n, base);
  }

  lemma {:induction false} NumeralDigits(n: nat, base: nat)
    requires 2 <= base <= 16
    ensures Numeral(n, base) != ""
    ensures forall c <- Numeral(n, base) :: DigitOf(c, base)
    decreases n
  {
    if n >= base {
      NumeralDigits(n / base, base);
    }
  }

  lemma NotADigit(c: char, n: nat, base: nat)
    requires 2 <= base <= 16 && !('0' <= c <= '9') && !('a' <= c <= 'f')
    ensures c !in Numeral(n, base)
  {
    NumeralDigits(n, base);
  }

  /** Two strings cut at their first separator. */
  lemma CutFirst(a: string, x: string, b: string, y: string, c: char)
    requires c !in a && c !in b && a + [c] + x == b + [c] + y
    ensures a == b && x == y
  {
    var s, t := a + [c] + x, b + [c] + y;
    assert s[|a|] == c && t[|b|] == c;
    assert forall i | 0 <= i < |a| :: s[i] == a[i] && a[i] in a;
    assert forall i | 0 <= i < |b| :: t[i] == b[i] && b[i] in b;
    assert a == s[..|a|] && b == t[..|b|] && x == s[|a| + 1..] && y == t[|b| + 1..];
  }

  /** Two strings cut at their last separator. */
  lemma CutLast(a: string, x: string, b: string, y: string, c: char)
    requires c !in x && c !in y && a + [c] + x == b + [c] + y
    ensures a == b && x == y
  {
    var s, t := a + [c] + x, b + [c] + y;
    assert s[|a|] == c && t[|b|] == c;
    assert x == s[|a| + 1..] && y == t[|b| + 1..];
    assert forall i | |a| < i < |s| :: s[i] in x;
    assert forall i | |b| < i < |t| :: t[i] in y;
    assert |a| == |b|;
    assert a == s[..|a|] && b == t[..|b|] && x == s[|a| + 1..] && y == t[|b| + 1..];
  }

  lemma SameLengthParts(a: string, x: string, b: string, y: string)
    requires |a| == |b| && a + x == b + y
    ensures a == b && x == y
  {
    assert a == (a + x)[..|a|] && b == (b + y)[..|b|];
    assert x == (a + x)[|a|..] && y == (b + y)[|b|..];
  }

  /** `parts.join(c)`. */
  function Join(parts: seq<string>, c: char): string {
    if |parts| == 0 then "" else if |parts| == 1 then parts[0] else parts[0] + [c] + Join(parts[1..], c)
  }

  /** Lists of non-empty parts without the separator are recovered from their join. */
  lemma {:induction false} JoinInjective(xs: seq<string>, ys: seq<string>, c: char)
    requires forall i | 0 <= i < |xs| :: xs[i] != "" && c !in xs[i]
    requires forall i | 0 <= i < |ys| :: ys[i] != "" && c !in ys[i]
    requires Join(xs, c) == Join(ys, c)
    ensures xs == ys
  {
    if |xs| > 0 {
      JoinCut(xs, c);
    }
    if |ys| > 0 {
      JoinCut(ys, c);
    }
    if |xs| > 0 && |ys| > 0 {
      CutFirst(xs[0], if |xs| == 1 then "" else Join(xs[1..], c) + [c],
               ys[0], if |ys| == 1 then "" else Join(ys[1..], c) + [c], c);
      if |xs| > 1 && |ys| > 1 {
        SameLengthParts(Join(xs[1..], c), [c], Join(ys[1..], c), [c]);
      }
      JoinInjective(xs[1..], ys[1..], c);
      assert xs == [xs[0]] + xs[1..] && ys == [ys[0]] + ys[1..];
    }
  }

  lemma JoinCut(xs: seq<string>, c: char)
    requires |xs| > 0
    ensures Join(xs, c) + [c] == xs[0] + [c] + if |xs| == 1 then "" else Join(xs[1..], c) + [c]
  {
  }

  lemma {:induction false} JoinFree(xs: seq<string>, c: char, d: char)
    requires c != d && forall x <- xs :: d !in x
    ensures d !in Join(xs, c)
  {
    if |xs| > 1 {
      JoinFree(xs[1..], c, d);
    }
  }
}
