/** Strings as JavaScript has them, in 16-bit units, and their UTF-8 form. */
module Utf8 {

  type Unit = u: nat | u < 0x10000

  type Byte = b: nat | b < 0x100

  predicate High(u: Unit) { 0xD800 <= u < 0xDC00 }

  predicate Low(u: Unit) { 0xDC00 <= u < 0xE000 }

  predicate Surrogate(u: Unit) { High(u) || Low(u) }

  predicate StartsWithPair(s: seq<Unit>) { |s| >= 2 && High(s[0]) && Low(s[1]) }

  /** Every surrogate is half of a pair. */
  predicate WellFormed(s: seq<Unit>) {
    s == [] || (StartsWithPair(s) && WellFormed(s[2..])) || (!Surrogate(s[0]) && WellFormed(s[1..]))
  }

  lemma {:induction false} WellFormedJoin(s: seq<Unit>, t: seq<Unit>)
    requires WellFormed(s) && WellFormed(t)
    ensures WellFormed(s + t)
  {
    if s == [] {
      assert s + t == t;
    } else if StartsWithPair(s) {
      WellFormedJoin(s[2..], t);
      assert (s + t)[2..] == s[2..] + t;
    } else {
      WellFormedJoin(s[1..], t);
      assert (s + t)[1..] == s[1..] + t;
    }
  }

  lemma {:induction false} PlainIsWellFormed(s: seq<Unit>)
    requires forall i :: 0 <= i < |s| ==> !Surrogate(s[i])
    ensures WellFormed(s)
  {
    if s != [] {
      PlainIsWellFormed(s[1..]);
    }
  }

  // ---- encoding -------------------------------------------------------------------------------

  const Replacement: Unit := 0xFFFD

  /** The code point a surrogate pair stands for. */
  function Combine(high: Unit, low: Unit): (cp: nat)
    requires High(high) && Low(low)
    ensures 0x10000 <= cp < 0x110000
  {
    0x10000 + (high - 0xD800) * 0x400 + (low - 0xDC00)
  }

  /** One to three bytes. */
  function EncodeUnit(u: Unit): (r: seq<Byte>)
    ensures |r| >= 1
  {
    if u < 0x80 then [u]
    else if u < 0x800 then [0xC0 + u / 64, 0x80 + u % 64]
    else [0xE0 + u / 4096, 0x80 + u / 64 % 64, 0x80 + u % 64]
  }

  /** Four bytes. */
  function EncodePair(high: Unit, low: Unit): (r: seq<Byte>)
    requires High(high) && Low(low)
    ensures |r| == 4
  {
    var cp := Combine(high, low);
    [0xF0 + cp / 262144, 0x80 + cp / 4096 % 64, 0x80 + cp / 64 % 64, 0x80 + cp % 64]
  }

  /** The bytes of a unit that is no surrogate: their free bits make it up (section 3 of RFC 3629). */
  lemma UnitInFull(u: Unit)
    ensures var r := EncodeUnit(u);
      if u < 0x80 then r == [u]
      else if u < 0x800 then
        |r| == 2 && 0xC2 <= r[0] < 0xE0 && 0x80 <= r[1] < 0xC0 && u == (r[0] as int - 0xC0) * 64 + (r[1] as int - 0x80)
      else
        && |r| == 3 && 0xE0 <= r[0] < 0xF0 && 0x80 <= r[1] < 0xC0 && 0x80 <= r[2] < 0xC0
        && u == (r[0] as int - 0xE0) * 4096 + (r[1] as int - 0x80) * 64 + (r[2] as int - 0x80)
  {
    assert u / 4096 == u / 64 / 64;
  }

  /** The bytes of a pair make up its code point, which is 0x10000 and ten bits from either half. */
  lemma PairInFull(high: Unit, low: Unit)
    requires High(high) && Low(low)
    ensures var r := EncodePair(high, low);
      && 0xF0 <= r[0] < 0xF5 && 0x80 <= r[1] < 0xC0 && 0x80 <= r[2] < 0xC0 && 0x80 <= r[3] < 0xC0
      && 0x10000 + (high - 0xD800) * 0x400 + (low - 0xDC00)
         == (r[0] as int - 0xF0) * 262144 + (r[1] as int - 0x80) * 4096 + (r[2] as int - 0x80) * 64 + (r[3] as int - 0x80)
  {
    var cp := Combine(high, low);
    assert cp / 4096 == cp / 64 / 64 && cp / 262144 == cp / 4096 / 64;
  }

  /** `Buffer.from(s)`: a surrogate without its other half becomes the replacement character. */
  function Encode(s: seq<Unit>): seq<Byte> {
    if s == [] then []
    else if StartsWithPair(s) then EncodePair(s[0], s[1]) + Encode(s[2..])
    else EncodeUnit(if Surrogate(s[0]) then Replacement else s[0]) + Encode(s[1..])
  }

  // ---- decoding -------------------------------------------------------------------------------

  predicate Continuation(b: seq<Byte>, i: nat) { i < |b| && 0x80 <= b[i] < 0xC0 }

  /** The second byte rules out overlong forms, surrogates and anything past the last code point. */
  predicate SecondByte(b: seq<Byte>)
    requires b != []
  {
    && Continuation(b, 1)
    && (b[0] == 0xE0 ==> b[1] >= 0xA0) && (b[0] == 0xED ==> b[1] < 0xA0)
    && (b[0] == 0xF0 ==> b[1] >= 0x90) && (b[0] == 0xF4 ==> b[1] < 0x90)
  }

  function SplitPair(cp: nat): (r: seq<Unit>)
    requires 0x10000 <= cp < 0x110000
  {
    [0xD800 + (cp - 0x10000) / 0x400, 0xDC00 + (cp - 0x10000) % 0x400]
  }

  datatype Decoded = Decoded(units: seq<Unit>, length: nat)

  /** The first character, and how many bytes it takes; what is malformed is replaced as far as it goes. */
  function DecodeOne(b: seq<Byte>): (d: Decoded)
    requires b != []
    ensures 1 <= d.length <= |b|
  {
    if b[0] < 0x80 then Decoded([b[0]], 1)
    else if b[0] < 0xC2 || b[0] > 0xF4 || !SecondByte(b) then Decoded([Replacement], 1)
    else if b[0] < 0xE0 then Decoded([(b[0] as int - 0xC0) * 64 + (b[1] - 0x80)], 2)
    else if !Continuation(b, 2) then Decoded([Replacement], 2)
    else if b[0] < 0xF0 then Decoded([(b[0] as int - 0xE0) * 4096 + (b[1] as int - 0x80) * 64 + (b[2] - 0x80)], 3)
    else if !Continuation(b, 3) then Decoded([Replacement], 3)
    else
      var cp := (b[0] as int - 0xF0) * 262144 + (b[1] as int - 0x80) * 4096 + (b[2] as int - 0x80) * 64 + (b[3] - 0x80);
      Decoded(SplitPair(cp), 4)
  }

  /** `toString('utf-8')` */
  function Decode(b: seq<Byte>): seq<Unit>
    decreases |b|
  {
    if b == [] then [] else
    var d := DecodeOne(b);
    d.units + Decode(b[d.length..])
  }

  // ---- the round trip -------------------------------------------------------------------------

  lemma UnitRoundTrip(u: Unit, rest: seq<Byte>)
    requires !Surrogate(u)
    ensures DecodeOne(EncodeUnit(u) + rest) == Decoded([u], |EncodeUnit(u)|)
  {
    var b := EncodeUnit(u) + rest;
    if 0x80 <= u < 0x800 {
      assert b[0] == 0xC0 + u / 64 && b[1] == 0x80 + u % 64;
    } else if u >= 0x800 {
      assert b[0] == 0xE0 + u / 4096 && b[1] == 0x80 + u / 64 % 64 && b[2] == 0x80 + u % 64;
      assert u / 4096 == u / 64 / 64;
    }
  }

  lemma PairRoundTrip(high: Unit, low: Unit, rest: seq<Byte>)
    requires High(high) && Low(low)
    ensures DecodeOne(EncodePair(high, low) + rest) == Decoded([high, low], 4)
  {
    var cp := Combine(high, low);
    var b := EncodePair(high, low) + rest;
    assert b[0] == 0xF0 + cp / 262144 && b[1] == 0x80 + cp / 4096 % 64;
    assert b[2] == 0x80 + cp / 64 % 64 && b[3] == 0x80 + cp % 64;
    assert cp / 4096 == cp / 64 / 64 && cp / 262144 == cp / 4096 / 64;
    assert SplitPair(cp) == [high, low];
  }

  /** Every half of a pair that has lost its other half is replaced. */
  function ToWellFormed(s: seq<Unit>): (r: seq<Unit>)
    ensures |r| == |s|
  {
    if s == [] then []
    else if StartsWithPair(s) then s[..2] + ToWellFormed(s[2..])
    else [if Surrogate(s[0]) then 0xFFFD else s[0]] + ToWellFormed(s[1..])
  }

  lemma {:induction false} DecodeEncode(s: seq<Unit>)
    ensures Decode(Encode(s)) == ToWellFormed(s)
  {
    if s != [] {
      if StartsWithPair(s) {
        DecodeEncode(s[2..]);
        PairRoundTrip(s[0], s[1], Encode(s[2..]));
        assert (EncodePair(s[0], s[1]) + Encode(s[2..]))[4..] == Encode(s[2..]);
      } else {
        DecodeEncode(s[1..]);
        var u := if Surrogate(s[0]) then Replacement else s[0];
        UnitRoundTrip(u, Encode(s[1..]));
        assert (EncodeUnit(u) + Encode(s[1..]))[|EncodeUnit(u)|..] == Encode(s[1..]);
      }
    }
  }

  lemma {:induction false} WellFormedStays(s: seq<Unit>)
    requires WellFormed(s)
    ensures ToWellFormed(s) == s
  {
    if s != [] {
      WellFormedStays(if StartsWithPair(s) then s[2..] else s[1..]);
    }
  }

  /** Well-formed text survives. */
  lemma RoundTrip(s: seq<Unit>)
    requires WellFormed(s)
    ensures Decode(Encode(s)) == s
  {
    DecodeEncode(s);
    WellFormedStays(s);
  }

  lemma DecodeOneWellFormed(b: seq<Byte>)
    requires b != []
    ensures WellFormed(DecodeOne(b).units)
  {
    var u := DecodeOne(b).units;
    if |u| == 1 {
      assert WellFormed(u[1..]);
    } else {
      assert WellFormed(u[2..]);
    }
  }

  /** Decoding never leaves half a pair, whatever the bytes. */
  lemma {:induction false} DecodeWellFormed(b: seq<Byte>)
    ensures WellFormed(Decode(b))
    decreases |b|
  {
    if b != [] {
      var d := DecodeOne(b);
      DecodeOneWellFormed(b);
      DecodeWellFormed(b[d.length..]);
      WellFormedJoin(d.units, Decode(b[d.length..]));
    }
  }

  /** So well-formed text is all that survives. */
  lemma SurvivesExactlyWellFormed(s: seq<Unit>)
    ensures Decode(Encode(s)) == s <==> WellFormed(s)
  {
    DecodeWellFormed(Encode(s));
    if WellFormed(s) {
      RoundTrip(s);
    }
  }

  lemma UnitDecodedExactly(b: seq<Byte>)
    requires b != [] && DecodeOne(b).units != [Replacement] && DecodeOne(b).length <= 3
    ensures var d := DecodeOne(b); |d.units| == 1 && !Surrogate(d.units[0]) && EncodeUnit(d.units[0]) == b[..d.length]
  {
    var u := DecodeOne(b).units[0];
    if 0x80 <= b[0] < 0xE0 {
      assert u / 64 == b[0] - 0xC0 && u % 64 == b[1] - 0x80;
    } else if b[0] >= 0xE0 {
      assert u == (b[0] as int - 0xE0) * 4096 + (b[1] as int - 0x80) * 64 + (b[2] - 0x80);
      assert u / 64 == (b[0] as int - 0xE0) * 64 + (b[1] - 0x80);
      assert u / 64 / 64 == u / 4096;
    }
  }

  lemma PairDecodedExactly(b: seq<Byte>)
    requires b != [] && DecodeOne(b).units != [Replacement] && DecodeOne(b).length == 4
    ensures var d := DecodeOne(b);
      |d.units| == 2 && High(d.units[0]) && Low(d.units[1]) && EncodePair(d.units[0], d.units[1]) == b[..4]
  {
    var d := DecodeOne(b);
    var cp := (b[0] as int - 0xF0) * 262144 + (b[1] as int - 0x80) * 4096 + (b[2] as int - 0x80) * 64 + (b[3] - 0x80);
    assert d.units == SplitPair(cp);
    assert Combine(d.units[0], d.units[1]) == cp;
    assert cp / 64 == (b[0] as int - 0xF0) * 4096 + (b[1] as int - 0x80) * 64 + (b[2] - 0x80);
    assert cp / 4096 == cp / 64 / 64 && cp / 262144 == cp / 4096 / 64;
  }

  /** Only what `Encode` writes is read as something else than a replacement: no overlong form, no encoded half pair. */
  lemma {:induction false} DecodedExactly(b: seq<Byte>)
    requires Replacement !in Decode(b)
    ensures Encode(Decode(b)) == b
    decreases |b|
  {
    if b != [] {
      var d := DecodeOne(b);
      var rest := Decode(b[d.length..]);
      assert Decode(b) == d.units + rest;
      assert forall u :: u in rest ==> u in Decode(b);
      assert d.units[0] in Decode(b);
      DecodedExactly(b[d.length..]);
      assert b == b[..d.length] + b[d.length..];
      if d.length <= 3 {
        UnitDecodedExactly(b);
        assert (d.units + rest)[1..] == rest && !StartsWithPair(d.units + rest);
      } else {
        PairDecodedExactly(b);
        assert (d.units + rest)[2..] == rest;
      }
    }
  }

  // ---- the byte order mark --------------------------------------------------------------------

  const Mark: Unit := 0xFEFF

  predicate Marked(s: seq<Unit>) { s != [] && s[0] == Mark }

  /** `new TextDecoder().decode(b)`: one mark at the very start is dropped. `Buffer` keeps it. */
  function DecodeText(b: seq<Byte>): seq<Unit> {
    Decode(if [0xEF, 0xBB, 0xBF] <= b then b[3..] else b)
  }

  /** Only these three bytes decode to the mark. */
  lemma MarkBytes(b: seq<Byte>)
    ensures [0xEF, 0xBB, 0xBF] <= b <==> Marked(Decode(b))
  {
    if |b| >= 3 && b[0] == 0xEF && b[1] == 0xBB && b[2] == 0xBF {
      assert DecodeOne(b) == Decoded([Mark], 3);
    }
  }

  lemma TextDropsMark(b: seq<Byte>)
    ensures DecodeText(b) == if Marked(Decode(b)) then Decode(b)[1..] else Decode(b)
  {
    MarkBytes(b);
    if Marked(Decode(b)) {
      assert DecodeOne(b) == Decoded([Mark], 3);
    }
  }

  /** What `DecodeText` makes of encoded text, and so which text it gives back. */
  lemma TextSurvivesExactly(s: seq<Unit>)
    ensures DecodeText(Encode(s)) == if Marked(s) then ToWellFormed(s)[1..] else ToWellFormed(s)
    ensures DecodeText(Encode(s)) == s <==> WellFormed(s) && !Marked(s)
  {
    DecodeEncode(s);
    TextDropsMark(Encode(s));
    SurvivesExactlyWellFormed(s);
  }

  /** A mark in front of any text is lost, and nothing else. */
  lemma MarkIsLost(s: seq<Unit>)
    ensures DecodeText(Encode([Mark] + s)) == Decode(Encode(s))
  {
    TextSurvivesExactly([Mark] + s);
    DecodeEncode(s);
    assert ([Mark] + s)[1..] == s;
  }
}
