/** `anchorDigest` of src/pool.js: a 32-bit FNV-1a fold over framed certificate material. */
module AnchorDigest {
  import opened Text

  type Byte = b: nat | b < 0x100
  type CodeUnit = u: nat | u < 0x1_0000
  const MODULUS: nat := 0x1_0000_0000
  type Word = h: nat | h < MODULUS

  datatype Anchor = Pem(units: seq<CodeUnit>) | Der(bytes: seq<Byte>)

  const OFFSET: Word := 0x811c9dc5

  function Pow2(n: nat): (r: nat)
    ensures r > 0
  {
    if n == 0 then 1 else 2 * Pow2(n - 1)
  }

  /** Exclusive or of the low bits. */
  function Xor(a: nat, b: nat, bits: nat): (r: nat)
    ensures r < Pow2(bits)
  {
    if bits == 0 then 0 else (a + b) % 2 + 2 * Xor(a / 2, b / 2, bits - 1)
  }

  lemma WordBits()
    ensures Pow2(32) == MODULUS
  {
    assert Pow2(8) == 0x100;
    assert Pow2(16) == 0x10000;
    assert Pow2(24) == 0x100_0000;
  }

  /** `Math.imul(h ^ byte, 0x01000193) >>> 0`. */
  function Mix(h: Word, b: Byte): Word {
    WordBits();
    Multiply(Xor(h, b, 32))
  }

  function Multiply(x: Word): Word {
    x * 0x0100_0193 % MODULUS
  }

  function Fold(h: Word, stream: seq<Byte>): Word {
    if stream == [] then h else Mix(Fold(h, stream[..|stream| - 1]), stream[|stream| - 1])
  }

  function LowByte(unit: CodeUnit): Byte {
    unit % 0x100
  }

  /** The low bytes of code units. */
  function LowBytes(units: seq<CodeUnit>): (r: seq<Byte>)
    ensures |r| == |units|
    ensures forall i | 0 <= i < |units| :: r[i] == LowByte(units[i])
  {
    seq(|units|, i requires 0 <= i < |units| => LowByte(units[i]))
  }

  function Content(a: Anchor): seq<Byte> {
    match a
    case Pem(units) => LowBytes(units)
    case Der(bytes) => bytes
  }

  function Length(a: Anchor): nat {
    match a
    case Pem(units) => |units|
    case Der(bytes) => |bytes|
  }

  function LengthByte(n: nat, place: nat): Byte
    requires place > 0
  {
    n / place % 0x100
  }

  function Lengths(n: nat): seq<Byte> {
    [LengthByte(n, 1), LengthByte(n, 0x100), LengthByte(n, 0x10000)]
  }

  function Frame(content: seq<Byte>): seq<Byte> {
    Lengths(|content|) + content + [0xff]
  }

  /** Everything that is mixed in, in order. */
  function Stream(contents: seq<seq<Byte>>): seq<Byte> {
    if contents == [] then [] else Frame(contents[0]) + Stream(contents[1..])
  }

  function Contents(anchors: seq<Anchor>): (r: seq<seq<Byte>>)
    ensures |r| == |anchors| && forall i | 0 <= i < |r| :: r[i] == Content(anchors[i])
  {
    seq(|anchors|, i requires 0 <= i < |anchors| => Content(anchors[i]))
  }

  function Digest(anchors: seq<Anchor>): Word {
    Fold(OFFSET, Stream(Contents(anchors)))
  }

  function Hex(h: Word): string {
    Numeral(h, 16)
  }

  /** The length in three bytes, lowest first, the content, and a byte of ones; of a text the low byte of
      each code unit. */
  lemma FrameIs(a: Anchor)
    ensures
      var n, f := if a.Pem? then |a.units| else |a.bytes|, Frame(Content(a));
      && |f| == n + 4 && f[0] == n % 256 && f[1] == n / 256 % 256 && f[2] == n / 65536 % 256 && f[n + 3] == 255
      && forall i | 0 <= i < n :: f[3 + i] == if a.Pem? then a.units[i] % 256 else a.bytes[i]
  {
  }

  /** Bit k of n, the lowest being bit 0. */
  function Bit(n: nat, k: nat): nat
    decreases k
  {
    if k == 0 then n % 2 else Bit(n / 2, k - 1)
  }

  /** Bit by bit, the exclusive or is one exactly where the two differ. */
  lemma {:induction false} XorBits(a: nat, b: nat, bits: nat, k: nat)
    requires k < bits
    ensures Bit(Xor(a, b, bits), k) == if Bit(a, k) != Bit(b, k) then 1 else 0
  {
    LowestBit(a, b, bits);
    hide Xor;
    if k > 0 {
      XorBits(a / 2, b / 2, bits - 1, k - 1);
    }
  }

  lemma LowestBit(a: nat, b: nat, bits: nat)
    requires bits > 0
    ensures Xor(a, b, bits) % 2 == if a % 2 != b % 2 then 1 else 0
    ensures Xor(a, b, bits) / 2 == Xor(a / 2, b / 2, bits - 1)
  {
    OddSum(a, b);
    TwiceAndOne((a + b) % 2, Xor(a / 2, b / 2, bits - 1));
  }

  lemma OddSum(a: nat, b: nat)
    ensures (a + b) % 2 == if a % 2 != b % 2 then 1 else 0
  {
  }

  lemma TwiceAndOne(low: nat, rest: nat)
    requires low < 2
    ensures (low + 2 * rest) % 2 == low && (low + 2 * rest) / 2 == rest
  {
  }

  /** The constants are those of 32-bit FNV-1a. */
  lemma MixIs(h: Word, b: Byte)
    ensures OFFSET == 2166136261 && Mix(h, b) == Xor(h, b, 32) * 16777619 % 4294967296
  {
  }

  // ---------------------------------------------------------------- the fold

  /** The multiplier is odd, so a multiplication by it can be undone: its product with 0x359c449b is 1
      modulo 2^32. */
  lemma Multiplied(x: Word)
    ensures Multiply(x) * 0x359c_449b % MODULUS == x
  {
    var q, wraps := 0x0100_0193 * 0x359c_449b / MODULUS, x * 0x0100_0193 / MODULUS;
    assert Multiply(x) == x * 0x0100_0193 - wraps * MODULUS;
    assert Multiply(x) * 0x359c_449b == x + (x * q - wraps * 0x359c_449b) * MODULUS;
    Wrapped(x, x * q - wraps * 0x359c_449b);
  }

  lemma Wrapped(x: Word, k: int)
    ensures (x + k * MODULUS) % MODULUS == x
  {
  }

  lemma {:induction false} XorTells(a: nat, a': nat, b: nat, bits: nat)
    requires a < Pow2(bits) && a' < Pow2(bits)
    ensures Xor(a, b, bits) == Xor(a', b, bits) <==> a == a'
    ensures Xor(a, b, bits) == Xor(b, a, bits)
  {
    if bits > 0 {
      XorTells(a / 2, a' / 2, b / 2, bits - 1);
      Parity(a, a', b);
    }
  }

  lemma Parity(a: nat, a': nat, b: nat)
    ensures (a + b) % 2 == (a' + b) % 2 <==> a % 2 == a' % 2
    ensures a == a / 2 * 2 + a % 2
  {
  }

  lemma XorCommutes(a: nat, b: nat, bits: nat)
    ensures Xor(a, b, bits) == Xor(b, a, bits)
  {
  }

  /** One step loses nothing: the new state and the byte determine the old state, and the two states
      determine the byte. */
  lemma MixBijective(h: Word, h': Word, b: Byte, b': Byte)
    ensures Mix(h, b) == Mix(h', b) <==> h == h'
    ensures Mix(h, b) == Mix(h, b') <==> b == b'
  {
    hide Multiply, Xor;
    WordBits();
    hide Pow2;
    XorTells(h, h', b, 32);
    XorTells(b, b', h, 32);
    XorCommutes(h, b, 32);
    XorCommutes(h, b', 32);
    Multiplied(Xor(h, b, 32));
    Multiplied(Xor(h', b, 32));
    Multiplied(Xor(h, b', 32));
  }

  lemma {:induction false} FoldConcat(h: Word, s: seq<Byte>, t: seq<Byte>)
    ensures Fold(h, s + t) == Fold(Fold(h, s), t)
    decreases |t|
  {
    if t == [] {
      assert s + t == s;
    } else {
      FoldConcat(h, s, t[..|t| - 1]);
      assert (s + t)[..|s + t| - 1] == s + t[..|t| - 1];
    }
  }

  lemma {:induction false} FoldBijective(h: Word, h': Word, s: seq<Byte>)
    ensures Fold(h, s) == Fold(h', s) <==> h == h'
  {
    if s != [] {
      FoldBijective(h, h', s[..|s| - 1]);
      MixBijective(Fold(h, s[..|s| - 1]), Fold(h', s[..|s| - 1]), s[|s| - 1], s[|s| - 1]);
    }
  }

  /** Two streams of one length that differ in exactly one byte never collide. */
  lemma OneByteApart(s: seq<Byte>, t: seq<Byte>, k: nat)
    requires |s| == |t| && k < |s| && s[k] != t[k]
    requires forall i | 0 <= i < |s| && i != k :: s[i] == t[i]
    ensures Fold(OFFSET, s) != Fold(OFFSET, t)
    ensures Hex(Fold(OFFSET, s)) != Hex(Fold(OFFSET, t))
  {
    hide Mix, Hex;
    var front, back := s[..k], s[k + 1..];
    assert s == front + [s[k]] + back && t == front + [t[k]] + back;
    FoldConcat(OFFSET, front + [s[k]], back);
    FoldConcat(OFFSET, front + [t[k]], back);
    FoldOne(OFFSET, front, s[k]);
    FoldOne(OFFSET, front, t[k]);
    MixBijective(Fold(OFFSET, front), Fold(OFFSET, front), s[k], t[k]);
    FoldBijective(Mix(Fold(OFFSET, front), s[k]), Mix(Fold(OFFSET, front), t[k]), back);
    HexInjective(Fold(OFFSET, s), Fold(OFFSET, t));
  }

  lemma FoldOne(h: Word, s: seq<Byte>, b: Byte)
    ensures Fold(h, s + [b]) == Mix(Fold(h, s), b)
  {
    assert (s + [b])[..|s|] == s;
  }

  lemma HexInjective(h: Word, h': Word)
    ensures Hex(h) == Hex(h') <==> h == h'
  {
    if Hex(h) == Hex(h') {
      NumeralInjective(h, h', 16);
    }
  }

  // ---------------------------------------------------------------- the stream

  lemma Places(n: nat)
    requires n < 0x100_0000
    ensures n == n / 1 % 256 + 256 * (n / 0x100 % 256) + 0x10000 * (n / 0x10000 % 256)
  {
  }

  lemma LengthsTell(m: nat, n: nat)
    requires m < 0x100_0000 && n < 0x100_0000 && Lengths(m) == Lengths(n)
    ensures m == n
  {
    assert Lengths(m)[0] == Lengths(n)[0] && Lengths(m)[1] == Lengths(n)[1] && Lengths(m)[2] == Lengths(n)[2];
    Places(m);
    Places(n);
  }

  lemma FrameTells(c: seq<Byte>, rest: seq<Byte>, d: seq<Byte>, rest': seq<Byte>)
    requires |c| < 0x100_0000 && |d| < 0x100_0000
    requires Frame(c) + rest == Frame(d) + rest'
    ensures c == d && rest == rest'
  {
    var s, t := Frame(c) + rest, Frame(d) + rest';
    hide Lengths, LengthByte;
    LengthsShort(|c|);
    LengthsShort(|d|);
    assert s[..3] == Lengths(|c|) && t[..3] == Lengths(|d|);
    LengthsTell(|c|, |d|);
    assert s[3..3 + |c|] == c && t[3..3 + |d|] == d;
    assert s[4 + |c|..] == rest && t[4 + |d|..] == rest';
  }

  lemma LengthsShort(n: nat)
    ensures |Lengths(n)| == 3
  {
  }

  /** Every content is short enough for its length to fit in three bytes. */
  ghost predicate Short(contents: seq<seq<Byte>>) {
    forall i | 0 <= i < |contents| :: |contents[i]| < 0x100_0000
  }

  lemma StreamCut(xs: seq<seq<Byte>>, ys: seq<seq<Byte>>)
    requires Short(xs) && Short(ys) && xs != [] && ys != [] && Stream(xs) == Stream(ys)
    ensures xs[0] == ys[0] && Stream(xs[1..]) == Stream(ys[1..])
  {
    hide Frame;
    FrameTells(xs[0], Stream(xs[1..]), ys[0], Stream(ys[1..]));
  }

  /** The stream tells the list of contents, wherever one ends and the next begins. */
  lemma {:induction false} StreamTells(xs: seq<seq<Byte>>, ys: seq<seq<Byte>>)
    requires Short(xs) && Short(ys)
    ensures Stream(xs) == Stream(ys) <==> xs == ys
  {
    hide Frame;
    if xs != [] && ys != [] {
      hide Stream;
      if Stream(xs) == Stream(ys) {
        StreamCut(xs, ys);
      }
      StreamTells(xs[1..], ys[1..]);
      assert xs == [xs[0]] + xs[1..] && ys == [ys[0]] + ys[1..];
    } else if xs != [] {
      FrameLong(xs[0]);
    } else if ys != [] {
      FrameLong(ys[0]);
    }
  }

  lemma FrameLong(c: seq<Byte>)
    ensures |Frame(c)| == |c| + 4
  {
  }

  /** Past three bytes of length the stream no longer tells: one anchor of 2^24 bytes is framed like
      two anchors, an empty one and the rest. */
  lemma LongAnchorsForge(body: seq<Byte>)
    requires |body| == 0x100_0000 - 4
    ensures
      var long: seq<Byte> := [0xff] + Lengths(|body|) + body;
      |long| == 0x100_0000 && Stream([long]) == Stream([[], body])
  {
    var long: seq<Byte> := [0xff] + Lengths(|body|) + body;
    assert Lengths(|long|) == Lengths(0) == [0, 0, 0];
    assert Stream([]) == [];
    var split: seq<seq<Byte>> := [[], body];
    assert [long][1..] == [] && split[1..] == [body] && [body][1..] == [];
    assert Stream([long]) == Frame(long);
    assert Stream([body]) == Frame(body);
    assert Stream([[], body]) == Frame([]) + Frame(body);
    assert Frame(long) == [0, 0, 0] + ([0xff] + Lengths(|body|) + body) + [0xff];
    assert Frame([]) == [0, 0, 0, 0xff];
  }

  lemma {:induction false} StreamConcat(xs: seq<seq<Byte>>, x: seq<Byte>)
    ensures Stream(xs + [x]) == Stream(xs) + Frame(x)
  {
    if xs == [] {
      assert [x][1..] == [];
    } else {
      StreamConcat(xs[1..], x);
      assert (xs + [x])[1..] == xs[1..] + [x];
    }
  }

  /** Byte anchors, the lists of which are told apart by their streams. */
  lemma AnchorsTold(xs: seq<Anchor>, ys: seq<Anchor>)
    requires forall i | 0 <= i < |xs| :: xs[i].Der? && Length(xs[i]) < 0x100_0000
    requires forall i | 0 <= i < |ys| :: ys[i].Der? && Length(ys[i]) < 0x100_0000
    ensures Stream(Contents(xs)) == Stream(Contents(ys)) <==> xs == ys
  {
    StreamTells(Contents(xs), Contents(ys));
    if Contents(xs) == Contents(ys) {
      forall i | 0 <= i < |xs| ensures xs[i] == ys[i] {
        assert Contents(xs)[i] == Contents(ys)[i];
      }
    }
  }

  /** A change of one byte of one anchor always changes the digest. */
  lemma OneByteChanged(xs: seq<Anchor>, ys: seq<Anchor>, n: nat, k: nat)
    requires |xs| == |ys| && n < |xs| && (forall i | 0 <= i < |xs| && i != n :: xs[i] == ys[i])
    requires xs[n].Der? && ys[n].Der? && |xs[n].bytes| == |ys[n].bytes| && k < |xs[n].bytes|
    requires xs[n].bytes[k] != ys[n].bytes[k]
    requires forall i | 0 <= i < |xs[n].bytes| && i != k :: xs[n].bytes[i] == ys[n].bytes[i]
    ensures Hex(Digest(xs)) != Hex(Digest(ys))
  {
    hide Hex, Frame, Fold;
    var cs, ds := Contents(xs), Contents(ys);
    assert forall i | 0 <= i < |cs| && i != n :: cs[i] == ds[i];
    StreamAround(cs, ds, n, k);
    var at: nat :| at < |Stream(cs)| == |Stream(ds)| && Apart(Stream(cs), Stream(ds), at);
    OneByteApart(Stream(cs), Stream(ds), at);
  }

  ghost predicate Apart(s: seq<Byte>, t: seq<Byte>, k: nat)
    requires k < |s| == |t|
  {
    s[k] != t[k] && forall i | 0 <= i < |s| && i != k :: s[i] == t[i]
  }

  lemma {:induction false} StreamAround(cs: seq<seq<Byte>>, ds: seq<seq<Byte>>, n: nat, k: nat)
    requires |cs| == |ds| && n < |cs| && (forall i | 0 <= i < |cs| && i != n :: cs[i] == ds[i])
    requires |cs[n]| == |ds[n]| && k < |cs[n]| && Apart(cs[n], ds[n], k)
    ensures exists at: nat :: at < |Stream(cs)| == |Stream(ds)| && Apart(Stream(cs), Stream(ds), at)
  {
    hide Lengths, LengthByte;
    LengthsShort(|cs[0]|);
    LengthsShort(|ds[0]|);
    if n == 0 {
      assert cs[1..] == ds[1..];
      assert Apart(Stream(cs), Stream(ds), 3 + k);
    } else {
      StreamAround(cs[1..], ds[1..], n - 1, k);
      var at: nat :| at < |Stream(cs[1..])| == |Stream(ds[1..])| && Apart(Stream(cs[1..]), Stream(ds[1..]), at);
      assert Apart(Stream(cs), Stream(ds), |Frame(cs[0])| + at);
    }
  }

  // ---------------------------------------------------------------- the memo

  /** The weak map from anchor arrays, by identity, to their digests. */
  class DigestCache {
    var digests: map<nat, string>

    constructor ()
      ensures digests == map[]
    {
      digests := map[];
    }

    /** Computed once for an array, and never looked at again. */
    method Of(list: nat, anchors: seq<Anchor>) returns (out: string)
      modifies this
      ensures out == if list in old(digests) then old(digests[list]) else Hex(Digest(anchors))
      ensures digests == old(digests)[list := out]
    {
      if list in digests {
        out := digests[list];
        assert digests == digests[list := out];
        return;
      }
      var h := MixAll(anchors);
      out := Hex(h);
      digests := digests[list := out];
    }
  }

  method MixAll(anchors: seq<Anchor>) returns (h: Word)
    ensures h == Digest(anchors)
  {
    hide Frame;
    h := OFFSET;
    for n := 0 to |anchors|
      invariant h == Fold(OFFSET, Stream(Contents(anchors[..n])))
    {
      h := MixAnchor(h, anchors[n]);
      assert anchors[..n + 1] == anchors[..n] + [anchors[n]];
      assert Contents(anchors[..n + 1]) == Contents(anchors[..n]) + [Content(anchors[n])];
      StreamConcat(Contents(anchors[..n]), Content(anchors[n]));
      FoldConcat(OFFSET, Stream(Contents(anchors[..n])), Frame(Content(anchors[n])));
    }
    assert anchors[..|anchors|] == anchors;
  }

  lemma FoldThree(h: Word, a: Byte, b: Byte, c: Byte)
    ensures Fold(h, [a, b, c]) == Mix(Mix(Mix(h, a), b), c)
  {
    hide Mix;
    assert [a, b, c] == [] + [a] + [b] + [c];
    FoldOne(h, [], a);
    FoldOne(h, [] + [a], b);
    FoldOne(h, [] + [a] + [b], c);
  }

  method MixAnchor(start: Word, a: Anchor) returns (h: Word)
    ensures h == Fold(start, Frame(Content(a)))
  {
    hide Mix;
    var n := Length(a);
    h := Mix(start, LengthByte(n, 1));
    h := Mix(h, LengthByte(n, 0x100));
    h := Mix(h, LengthByte(n, 0x10000));
    FoldThree(start, LengthByte(n, 1), LengthByte(n, 0x100), LengthByte(n, 0x10000));
    assert Lengths(n) + Content(a)[..0] == Lengths(n);
    for i := 0 to n
      invariant h == Fold(start, Lengths(n) + Content(a)[..i])
    {
      var b := if a.Pem? then LowByte(a.units[i]) else a.bytes[i];
      h := Mix(h, b);
      FoldOne(start, Lengths(n) + Content(a)[..i], b);
      assert Content(a)[..i + 1] == Content(a)[..i] + [b];
      assert Lengths(n) + Content(a)[..i + 1] == Lengths(n) + Content(a)[..i] + [b];
    }
    assert Content(a)[..n] == Content(a);
    h := Mix(h, 0xff);
    FoldOne(start, Lengths(n) + Content(a), 0xff);
  }
}
