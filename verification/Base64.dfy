/** Base64 with padding, as in section 4 of RFC 4648, and the forgiving way Buffer.from reads it. */
module Base64 {
  import opened Utf8

  type Sextet = n: nat | n < 64

  /** The alphabet: A-Z, a-z, 0-9, + and /. */
  function Symbol(n: Sextet): (u: Unit)
    ensures u < 0x80
  {
    if n < 26 then 65 + n
    else if n < 52 then 97 + (n - 26)
    else if n < 62 then 48 + (n - 52)
    else if n == 62 then 43 else 47
  }

  const Pad: Unit := 61

  /** The alphabet for URLs, with - and _ in the last two places, is read as well. */
  predicate InAlphabet(u: Unit) {
    65 <= u < 91 || 97 <= u < 123 || 48 <= u < 58 || u in {43, 47, 45, 95}
  }

  function Value(u: Unit): Sextet
    requires InAlphabet(u)
  {
    if 65 <= u < 91 then u - 65
    else if 97 <= u < 123 then u - 97 + 26
    else if 48 <= u < 58 then u - 48 + 52
    else if u == 43 || u == 45 then 62 else 63
  }

  function Group(a: Byte, b: Byte, c: Byte): (r: seq<Sextet>)
    ensures |r| == 4
  {
    [a / 4, a % 4 * 16 + b / 16, b % 16 * 4 + c / 64, c % 64]
  }

  function Symbols(n: seq<Sextet>): seq<Unit> {
    if n == [] then [] else [Symbol(n[0])] + Symbols(n[1..])
  }

  /** Three bytes make four symbols; one or two left over are padded. */
  function Encode(b: seq<Byte>): seq<Unit> {
    if b == [] then []
    else if |b| == 1 then Symbols(Group(b[0], 0, 0)[..2]) + [Pad, Pad]
    else if |b| == 2 then Symbols(Group(b[0], b[1], 0)[..3]) + [Pad]
    else Symbols(Group(b[0], b[1], b[2])) + Encode(b[3..])
  }

  /** What is outside the alphabet is skipped. */
  function Sextets(s: seq<Unit>): seq<Sextet> {
    if s == [] then []
    else (if InAlphabet(s[0]) then [Value(s[0])] else []) + Sextets(s[1..])
  }

  function Bytes(n: seq<Sextet>): seq<Byte> {
    if |n| < 2 then []
    else if |n| == 2 then [n[0] as int * 4 + n[1] / 16]
    else if |n| == 3 then [n[0] as int * 4 + n[1] / 16, n[1] as int % 16 * 16 + n[2] / 4]
    else [n[0] as int * 4 + n[1] / 16, n[1] as int % 16 * 16 + n[2] / 4, n[2] as int % 4 * 64 + n[3]] + Bytes(n[4..])
  }

  function Decode(s: seq<Unit>): seq<Byte> {
    Bytes(Sextets(s))
  }

  // ---- the text in full -----------------------------------------------------------------------

  lemma SymbolInFull(n: Sextet)
    ensures n < 26 ==> Symbol(n) == 'A' as int + n
    ensures 26 <= n < 52 ==> Symbol(n) == 'a' as int + (n - 26)
    ensures 52 <= n < 62 ==> Symbol(n) == '0' as int + (n - 52)
    ensures Symbol(62) == '+' as int && Symbol(63) == '/' as int && Pad == '=' as int
  {}

  /** What is read: the alphabet's own symbols as their numbers, - and _ as the last two, and nothing else. */
  lemma ValueInFull(u: Unit, n: Sextet)
    ensures InAlphabet(Symbol(n)) && Value(Symbol(n)) == n
    ensures Value('-' as int) == 62 && Value('_' as int) == 63
    ensures InAlphabet(u) ==> u == Symbol(Value(u)) || u == '-' as int || u == '_' as int
  {}

  /** The four symbols stand for these 24 bits. */
  predicate Stand(p: Sextet, q: Sextet, r: Sextet, s: Sextet, bits: nat) {
    p as int * 262144 + q as int * 4096 + r as int * 64 + s == bits
  }

  lemma SymbolsOf(n: seq<Sextet>)
    requires |n| <= 4
    ensures |Symbols(n)| == |n| && forall i :: 0 <= i < |n| ==> Symbols(n)[i] == Symbol(n[i])
  {
    if n != [] {
      SymbolsOf(n[1..]);
    }
  }

  /** Each three bytes are the 24 bits of four symbols. */
  lemma GroupInFull(b: seq<Byte>)
    requires |b| >= 3
    ensures exists p, q, r, s ::
      && Stand(p, q, r, s, b[0] as int * 65536 + b[1] as int * 256 + b[2])
      && Encode(b) == [Symbol(p), Symbol(q), Symbol(r), Symbol(s)] + Encode(b[3..])
  {
    var n := Group(b[0], b[1], b[2]);
    SymbolsOf(n);
    assert Symbols(n) == [Symbol(n[0]), Symbol(n[1]), Symbol(n[2]), Symbol(n[3])];
    assert Stand(n[0], n[1], n[2], n[3], b[0] as int * 65536 + b[1] as int * 256 + b[2]);
  }

  lemma GroupStands(a: Byte, b: Byte, c: Byte)
    ensures var n := Group(a, b, c); Stand(n[0], n[1], n[2], n[3], a as int * 65536 + b as int * 256 + c)
  {}

  /** Of a byte left over, two symbols carry the bits and two are padding. */
  lemma OneLeftInFull(a: Byte)
    ensures exists p, q :: Stand(p, q, 0, 0, a as int * 65536) && Encode([a]) == [Symbol(p), Symbol(q), Pad, Pad]
  {
    var n := Group(a, 0, 0);
    SymbolsOf(n[..2]);
    GroupStands(a, 0, 0);
    assert Stand(n[0], n[1], 0, 0, a as int * 65536);
    assert Encode([a]) == [Symbol(n[0]), Symbol(n[1]), Pad, Pad];
  }

  /** Of two bytes left over, three symbols carry the bits and one is padding. */
  lemma TwoLeftInFull(a: Byte, b: Byte)
    ensures exists p, q, r ::
      Stand(p, q, r, 0, a as int * 65536 + b as int * 256) && Encode([a, b]) == [Symbol(p), Symbol(q), Symbol(r), Pad]
  {
    var n := Group(a, b, 0);
    SymbolsOf(n[..3]);
    GroupStands(a, b, 0);
    assert Stand(n[0], n[1], n[2], 0, a as int * 65536 + b as int * 256);
    assert Encode([a, b]) == [Symbol(n[0]), Symbol(n[1]), Symbol(n[2]), Pad];
  }

  // ---- the round trip -------------------------------------------------------------------------

  /** The sextets that carry the bytes. */
  function Digits(b: seq<Byte>): seq<Sextet> {
    if b == [] then []
    else if |b| == 1 then Group(b[0], 0, 0)[..2]
    else if |b| == 2 then Group(b[0], b[1], 0)[..3]
    else Group(b[0], b[1], b[2]) + Digits(b[3..])
  }

  lemma {:induction false} SextetsJoin(s: seq<Unit>, t: seq<Unit>)
    ensures Sextets(s + t) == Sextets(s) + Sextets(t)
  {
    if s == [] {
      assert s + t == t;
    } else {
      SextetsJoin(s[1..], t);
      assert (s + t)[1..] == s[1..] + t;
      var head: seq<Sextet> := if InAlphabet(s[0]) then [Value(s[0])] else [];
      assert Sextets(s + t) == head + (Sextets(s[1..]) + Sextets(t));
    }
  }

  lemma {:induction false} SextetsOfSymbols(n: seq<Sextet>)
    ensures Sextets(Symbols(n)) == n
  {
    if n != [] {
      SextetsOfSymbols(n[1..]);
      assert Symbols(n)[1..] == Symbols(n[1..]);
    }
  }

  lemma {:induction false} SextetsOfEncoded(b: seq<Byte>)
    ensures Sextets(Encode(b)) == Digits(b)
  {
    if |b| == 1 || |b| == 2 {
      var digits := if |b| == 1 then Group(b[0], 0, 0)[..2] else Group(b[0], b[1], 0)[..3];
      var pads := if |b| == 1 then [Pad, Pad] else [Pad];
      SextetsOfSymbols(digits);
      SextetsJoin(Symbols(digits), pads);
      assert Sextets([Pad]) == [] && [Pad, Pad][1..] == [Pad];
    } else if |b| >= 3 {
      SextetsOfSymbols(Group(b[0], b[1], b[2]));
      SextetsJoin(Symbols(Group(b[0], b[1], b[2])), Encode(b[3..]));
      SextetsOfEncoded(b[3..]);
    }
  }

  lemma GroupBytes(a: Byte, b: Byte, c: Byte)
    ensures var n := Group(a, b, c);
      && n[0] as int * 4 + n[1] / 16 == a && n[1] as int % 16 * 16 + n[2] / 4 == b && n[2] as int % 4 * 64 + n[3] == c
  {}

  lemma {:induction false} BytesOfDigits(b: seq<Byte>)
    ensures Bytes(Digits(b)) == b
  {
    if b != [] {
      GroupBytes(b[0], if |b| > 1 then b[1] else 0, if |b| > 2 then b[2] else 0);
    }
    if |b| >= 3 {
      BytesOfDigits(b[3..]);
      assert Digits(b)[4..] == Digits(b[3..]);
    }
  }

  /** Any bytes survive, padding and all. */
  lemma RoundTrip(b: seq<Byte>)
    ensures Decode(Encode(b)) == b
  {
    SextetsOfEncoded(b);
    BytesOfDigits(b);
  }

  /** Padded text comes in whole groups of four, all from the alphabet or padding. */
  lemma {:induction false} EncodedLength(b: seq<Byte>)
    ensures |Encode(b)| == (|b| + 2) / 3 * 4
  {
    if |b| == 1 || |b| == 2 {
      SymbolsLength(if |b| == 1 then Group(b[0], 0, 0)[..2] else Group(b[0], b[1], 0)[..3]);
    } else if |b| >= 3 {
      SymbolsLength(Group(b[0], b[1], b[2]));
      EncodedLength(b[3..]);
    }
  }

  lemma {:induction false} SymbolsLength(n: seq<Sextet>)
    ensures |Symbols(n)| == |n|
  {
    if n != [] {
      SymbolsLength(n[1..]);
    }
  }
}
