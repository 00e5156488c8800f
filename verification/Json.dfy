/** JSON text as JSON.stringify writes it and JSON.parse reads it (RFC 8259). */
module Json {
  import opened Wrappers
  import opened Utf8

  type Text = seq<Unit>

  /** A number's value plays no part here, only that it is one. */
  datatype Value =
    | Null
    | Bool(b: bool)
    | Number
    | String(s: Text)
    | Array(elements: seq<Value>)
    | Object(members: seq<Member>)

  datatype Member = Member(key: Text, value: Value)

  const Quote: Unit := 0x22
  const Backslash: Unit := 0x5C

  // ---- strings --------------------------------------------------------------------------------

  function HexDigit(n: nat): (u: Unit)
    requires n < 16
  {
    if n < 10 then 0x30 + n else 0x61 + (n - 10)
  }

  function HexValue(u: Unit): (r: Option<nat>)
    ensures r.Some? ==> r.value < 16
  {
    if 0x30 <= u < 0x3A then Some(u - 0x30)
    else if 0x61 <= u < 0x67 then Some(u - 0x61 + 10)
    else if 0x41 <= u < 0x47 then Some(u - 0x41 + 10)
    else None
  }

  /** The letter after the backslash of a two-unit escape. */
  function ShortEscape(u: Unit): Option<Unit> {
    if u == Quote || u == Backslash then Some(u)
    else if u == 8 then Some(0x62)
    else if u == 9 then Some(0x74)
    else if u == 10 then Some(0x6E)
    else if u == 12 then Some(0x66)
    else if u == 13 then Some(0x72)
    else None
  }

  function EscapeUnit(u: Unit): (r: Text)
    ensures |r| >= 1
  {
    if ShortEscape(u).Some? then [Backslash, ShortEscape(u).value]
    else if u < 0x20 || Surrogate(u) then
      [Backslash, 0x75, HexDigit(u / 4096), HexDigit(u / 256 % 16), HexDigit(u / 16 % 16), HexDigit(u % 16)]
    else [u]
  }

  /** A surrogate pair stays as it is; half of one is escaped. */
  function Escape(s: Text): Text {
    if s == [] then []
    else if StartsWithPair(s) then s[..2] + Escape(s[2..])
    else EscapeUnit(s[0]) + Escape(s[1..])
  }

  function Quoted(s: Text): Text {
    [Quote] + Escape(s) + [Quote]
  }

  datatype Parsed<T> = Parsed(value: T, rest: Text)

  /** The unit an escape stands for, given what follows the backslash. */
  function ParseEscape(t: Text): (r: Option<Parsed<Unit>>)
    ensures r.Some? ==> |r.value.rest| < |t|
  {
    if t == [] then None
    else if t[0] == Quote || t[0] == Backslash || t[0] == 0x2F then Some(Parsed(t[0], t[1..]))
    else if t[0] == 0x62 then Some(Parsed(8, t[1..]))
    else if t[0] == 0x74 then Some(Parsed(9, t[1..]))
    else if t[0] == 0x6E then Some(Parsed(10, t[1..]))
    else if t[0] == 0x66 then Some(Parsed(12, t[1..]))
    else if t[0] == 0x72 then Some(Parsed(13, t[1..]))
    else if t[0] == 0x75 && |t| >= 5 then
      var a, b, c, d := HexValue(t[1]), HexValue(t[2]), HexValue(t[3]), HexValue(t[4]);
      if a.Some? && b.Some? && c.Some? && d.Some?
      then Some(Parsed(4096 * a.value + 256 * b.value + 16 * c.value + d.value, t[5..]))
      else None
    else None
  }

  /** The rest of a string, after its opening quote. */
  function ParseChars(t: Text): (r: Option<Parsed<Text>>)
    ensures r.Some? ==> |r.value.rest| < |t|
    decreases |t|
  {
    if t == [] || t[0] < 0x20 then None
    else if t[0] == Quote then Some(Parsed([], t[1..]))
    else
      var first := if t[0] == Backslash then ParseEscape(t[1..]) else Some(Parsed(t[0], t[1..]));
      if first.None? then None else
      match ParseChars(first.value.rest)
      case Some(more) => Some(Parsed([first.value.value] + more.value, more.rest))
      case None => None
  }

  // ---- values ---------------------------------------------------------------------------------

  function SkipBlanks(t: Text): (r: Text)
    ensures |r| <= |t|
  {
    if t != [] && t[0] in {0x20, 0x09, 0x0A, 0x0D} then SkipBlanks(t[1..]) else t
  }

  function SkipDigits(t: Text): (r: Text)
    ensures |r| <= |t|
  {
    if t != [] && 0x30 <= t[0] < 0x3A then SkipDigits(t[1..]) else t
  }

  /** One digit or more. */
  function Digits(t: Text): (r: Option<Text>)
    ensures r.Some? ==> |r.value| < |t|
  {
    if t != [] && 0x30 <= t[0] < 0x3A then Some(SkipDigits(t[1..])) else None
  }

  function Fraction(t: Text): (r: Option<Text>)
    ensures r.Some? ==> |r.value| <= |t|
  {
    if t != [] && t[0] == 0x2E then Digits(t[1..]) else Some(t)
  }

  function Exponent(t: Text): (r: Option<Text>)
    ensures r.Some? ==> |r.value| <= |t|
  {
    if t != [] && t[0] in {0x65, 0x45}
    then Digits(if |t| > 1 && t[1] in {0x2B, 0x2D} then t[2..] else t[1..])
    else Some(t)
  }

  function ParseNumber(t: Text): (r: Option<Text>)
    ensures r.Some? ==> |r.value| < |t|
  {
    var u := if t != [] && t[0] == 0x2D then t[1..] else t;
    var whole := if u != [] && u[0] == 0x30 then Some(u[1..]) else Digits(u);
    if whole.None? then None else
    var fraction := Fraction(whole.value);
    if fraction.None? then None else Exponent(fraction.value)
  }

  const NullWord: Text := [0x6E, 0x75, 0x6C, 0x6C]
  const TrueWord: Text := [0x74, 0x72, 0x75, 0x65]
  const FalseWord: Text := [0x66, 0x61, 0x6C, 0x73, 0x65]

  /** A value at the start of the text, blanks before it allowed. */
  function ParseValue(s: Text): (r: Option<Parsed<Value>>)
    ensures r.Some? ==> |r.value.rest| < |s|
    decreases |s|, 0
  {
    var t := SkipBlanks(s);
    if t == [] then None
    else if NullWord <= t then Some(Parsed(Null, t[4..]))
    else if TrueWord <= t then Some(Parsed(Bool(true), t[4..]))
    else if FalseWord <= t then Some(Parsed(Bool(false), t[5..]))
    else if t[0] == Quote then
      (match ParseChars(t[1..])
       case Some(p) => Some(Parsed(String(p.value), p.rest))
       case None => None)
    else if t[0] == 0x5B then
      var u := SkipBlanks(t[1..]);
      if u != [] && u[0] == 0x5D then Some(Parsed(Array([]), u[1..])) else
      (match ParseElements(t[1..])
       case Some(p) => Some(Parsed(Array(p.value), p.rest))
       case None => None)
    else if t[0] == 0x7B then
      var u := SkipBlanks(t[1..]);
      if u != [] && u[0] == 0x7D then Some(Parsed(Object([]), u[1..])) else
      (match ParseMembers(t[1..])
       case Some(p) => Some(Parsed(Object(p.value), p.rest))
       case None => None)
    else
      match ParseNumber(t)
      case Some(rest) => Some(Parsed(Number, rest))
      case None => None
  }

  /** One element or more, up to the closing bracket. */
  function ParseElements(s: Text): (r: Option<Parsed<seq<Value>>>)
    ensures r.Some? ==> |r.value.rest| < |s|
    decreases |s|, 1
  {
    match ParseValue(s)
    case None => None
    case Some(first) =>
      var t := SkipBlanks(first.rest);
      if t == [] then None
      else if t[0] == 0x5D then Some(Parsed([first.value], t[1..]))
      else if t[0] != 0x2C then None
      else match ParseElements(t[1..])
           case Some(more) => Some(Parsed([first.value] + more.value, more.rest))
           case None => None
  }

  /** One member: a key, a colon, a value. */
  function ParseMember(s: Text): (r: Option<Parsed<Member>>)
    ensures r.Some? ==> |r.value.rest| < |s|
    decreases |s|, 1
  {
    var t := SkipBlanks(s);
    if t == [] || t[0] != Quote then None else
    match ParseChars(t[1..])
    case None => None
    case Some(key) =>
      var u := SkipBlanks(key.rest);
      if u == [] || u[0] != 0x3A then None else
      match ParseValue(u[1..])
      case Some(p) => Some(Parsed(Member(key.value, p.value), p.rest))
      case None => None
  }

  /** One member or more, up to the closing brace. */
  function ParseMembers(s: Text): (r: Option<Parsed<seq<Member>>>)
    ensures r.Some? ==> |r.value.rest| < |s|
    decreases |s|, 2
  {
    match ParseMember(s)
    case None => None
    case Some(first) =>
      var t := SkipBlanks(first.rest);
      if t == [] then None
      else if t[0] == 0x7D then Some(Parsed([first.value], t[1..]))
      else if t[0] != 0x2C then None
      else match ParseMembers(t[1..])
           case Some(more) => Some(Parsed([first.value] + more.value, more.rest))
           case None => None
  }

  /** JSON.parse: one value, and nothing but blanks after it. */
  function Parse(s: Text): Option<Value> {
    match ParseValue(s)
    case Some(p) => if SkipBlanks(p.rest) == [] then Some(p.value) else None
    case None => None
  }

  /** A member by its key: the last one of that name. */
  function Lookup(members: seq<Member>, key: Text): Option<Value> {
    if members == [] then None
    else if members[|members| - 1].key == key then Some(members[|members| - 1].value)
    else Lookup(members[..|members| - 1], key)
  }

  /** Of members with the same key the last one counts. */
  lemma {:induction false} LookupInFull(members: seq<Member>, key: Text)
    ensures match Lookup(members, key)
      case None => forall i :: 0 <= i < |members| ==> members[i].key != key
      case Some(v) => exists i :: 0 <= i < |members| && members[i] == Member(key, v)
                                  && forall j :: i < j < |members| ==> members[j].key != key
  {
    if members != [] {
      var front, n := members[..|members| - 1], |members| - 1;
      LookupInFull(front, key);
      if members[n].key == key {
        assert members[n] == Member(key, members[n].value);
      } else if Lookup(front, key).Some? {
        var v := Lookup(front, key).value;
        var i :| 0 <= i < n && front[i] == Member(key, v) && forall j :: i < j < n ==> front[j].key != key;
        assert members[i] == Member(key, v);
      }
    }
  }

  // ---- objects of strings ---------------------------------------------------------------------

  datatype Field = Field(key: Text, value: Text)

  function FieldText(f: Field): Text {
    Quoted(f.key) + [0x3A] + Quoted(f.value)
  }

  /** The fields, with commas between them, and the closing brace. */
  function FieldsText(fields: seq<Field>): Text
    requires fields != []
  {
    FieldText(fields[0]) + if |fields| == 1 then [0x7D] else [0x2C] + FieldsText(fields[1..])
  }

  function Stringify(fields: seq<Field>): Text {
    [0x7B] + if fields == [] then [0x7D] else FieldsText(fields)
  }

  function Members(fields: seq<Field>): seq<Member> {
    if fields == [] then [] else [Member(fields[0].key, String(fields[0].value))] + Members(fields[1..])
  }

  // ---- the text in full -----------------------------------------------------------------------

  /** The units of a text written in ASCII. */
  function Ascii(s: string): (t: Text)
    requires forall i :: 0 <= i < |s| ==> (s[i] as int) < 0x80
    ensures |t| == |s| && forall i :: 0 <= i < |s| ==> t[i] == s[i] as int
  {
    seq(|s|, i requires 0 <= i < |s| => s[i] as int)
  }

  lemma TwoFieldsText(f: Field, g: Field)
    ensures Stringify([f, g]) == [0x7B] + (FieldText(f) + ([0x2C] + (FieldText(g) + [0x7D])))
  {
    assert [f, g][1..] == [g];
    assert FieldsText([g]) == FieldText(g) + [0x7D];
  }

  predicate Plain(u: Unit) {
    u >= 0x20 && u != '"' as int && u != '\\' as int && !Surrogate(u)
  }

  /** A hexadecimal digit, in lower case. */
  function Hex(n: nat): Text
    requires n < 16
  {
    [if n < 10 then '0' as int + n else 'a' as int + (n - 10)]
  }

  /** The four digits of a unit. */
  function HexDigits(u: Unit): (r: Text)
    ensures |r| == 4 && exists a: nat, b: nat, c: nat, d: nat ::
      && a < 16 && b < 16 && c < 16 && d < 16
      && u == 4096 * a + 256 * b + 16 * c + d && r == Hex(a) + Hex(b) + Hex(c) + Hex(d)
  {
    var a, b, c, d := u / 4096, u / 256 % 16, u / 16 % 16, u % 16;
    assert u / 256 == u / 16 / 16 && u / 4096 == u / 256 / 16;
    assert u == 4096 * a + 256 * b + 16 * c + d;
    Hex(a) + Hex(b) + Hex(c) + Hex(d)
  }

  lemma HexDigitsAre(u: Unit)
    ensures HexDigits(u) == [HexDigit(u / 4096), HexDigit(u / 256 % 16), HexDigit(u / 16 % 16), HexDigit(u % 16)]
  {
    var a, b, c, d := u / 4096, u / 256 % 16, u / 16 % 16, u % 16;
    assert Hex(a) == [HexDigit(a)] && Hex(b) == [HexDigit(b)] && Hex(c) == [HexDigit(c)] && Hex(d) == [HexDigit(d)];
  }

  /** The escapes of section 7 of RFC 8259 that JSON.stringify writes: two units for these. */
  lemma ShortEscapesInFull()
    ensures EscapeUnit('"' as int) == Ascii("\\\"") && EscapeUnit('\\' as int) == Ascii("\\\\")
    ensures EscapeUnit(8) == Ascii("\\b") && EscapeUnit(9) == Ascii("\\t") && EscapeUnit(10) == Ascii("\\n")
    ensures EscapeUnit(12) == Ascii("\\f") && EscapeUnit(13) == Ascii("\\r")
  {}

  predicate Lengthy(u: Unit) {
    (u < 0x20 && u !in {8, 9, 10, 12, 13}) || Surrogate(u)
  }

  lemma SixUnits(h: Text)
    requires |h| == 4
    ensures Ascii("\\u") + h == [Backslash, 0x75, h[0], h[1], h[2], h[3]]
  {
    assert Ascii("\\u") == [Backslash, 0x75];
  }

  lemma LengthyIs(u: Unit)
    requires Lengthy(u)
    ensures EscapeUnit(u)
         == [Backslash, 0x75, HexDigit(u / 4096), HexDigit(u / 256 % 16), HexDigit(u / 16 % 16), HexDigit(u % 16)]
  {}

  /** Six for other controls and for half pairs, four of them the unit's own digits. */
  lemma LongEscapesInFull(u: Unit)
    requires Lengthy(u)
    ensures EscapeUnit(u) == Ascii("\\u") + HexDigits(u)
  {
    HexDigitsAre(u);
    SixUnits(HexDigits(u));
    LengthyIs(u);
  }

  lemma {:induction false} PlainStays(s: Text)
    requires forall i :: 0 <= i < |s| ==> Plain(s[i])
    ensures Escape(s) == s
  {
    if s != [] {
      PlainStays(s[1..]);
      assert s == [s[0]] + s[1..];
    }
  }

  // ---- the round trip -------------------------------------------------------------------------

  lemma HexRoundTrip(u: Unit, rest: Text)
    requires u < 0x20 || Surrogate(u)
    ensures ParseEscape([0x75, HexDigit(u / 4096), HexDigit(u / 256 % 16), HexDigit(u / 16 % 16), HexDigit(u % 16)]
                        + rest)
         == Some(Parsed(u, rest))
  {
    var a, b, c, d := u / 4096, u / 256 % 16, u / 16 % 16, u % 16;
    assert u / 256 == u / 16 / 16 && u / 4096 == u / 256 / 16;
    assert 4096 * a + 256 * b + 16 * c + d == u;
    var t := [0x75, HexDigit(a), HexDigit(b), HexDigit(c), HexDigit(d)] + rest;
    assert t[5..] == rest;
    assert HexValue(t[1]) == Some(a) && HexValue(t[2]) == Some(b);
    assert HexValue(t[3]) == Some(c) && HexValue(t[4]) == Some(d);
  }

  /** One unit, escaped or not, is read back as itself. */
  lemma UnitRoundTrip(u: Unit, rest: Text)
    ensures var t := EscapeUnit(u) + rest;
      && t[0] >= 0x20 && t[0] != Quote
      && (t[0] == Backslash ==> ParseEscape(t[1..]) == Some(Parsed(u, rest)))
      && (t[0] != Backslash ==> t[0] == u && t[1..] == rest)
  {
    var t := EscapeUnit(u) + rest;
    if ShortEscape(u).Some? {
      assert t[1..] == [ShortEscape(u).value] + rest;
      assert t[1..][1..] == rest;
    } else if u < 0x20 || Surrogate(u) {
      HexRoundTrip(u, rest);
      assert t[1..]
          == [0x75, HexDigit(u / 4096), HexDigit(u / 256 % 16), HexDigit(u / 16 % 16), HexDigit(u % 16)] + rest;
    }
  }

  lemma PlainStep(u: Unit, tail: Text, more: Text, rest: Text)
    requires u >= 0x20 && u != Quote && u != Backslash && ParseChars(tail) == Some(Parsed(more, rest))
    ensures ParseChars([u] + tail) == Some(Parsed([u] + more, rest))
  {
    assert ([u] + tail)[1..] == tail;
  }

  lemma UnitStep(u: Unit, tail: Text, more: Text, rest: Text)
    requires ParseChars(tail) == Some(Parsed(more, rest))
    ensures ParseChars(EscapeUnit(u) + tail) == Some(Parsed([u] + more, rest))
  {
    UnitRoundTrip(u, tail);
  }

  lemma Regroup(a: Text, b: Text, c: Text)
    ensures (a + b) + c == a + (b + c)
  {}

  lemma EscapeHead(s: Text, t: Text)
    requires s != []
    ensures StartsWithPair(s) ==> Escape(s) + t == [s[0]] + ([s[1]] + (Escape(s[2..]) + t))
    ensures !StartsWithPair(s) ==> Escape(s) + t == EscapeUnit(s[0]) + (Escape(s[1..]) + t)
  {
    if StartsWithPair(s) {
      assert s[..2] == [s[0]] + [s[1]];
      Regroup([s[0]] + [s[1]], Escape(s[2..]), t);
      Regroup([s[0]], [s[1]], Escape(s[2..]) + t);
    } else {
      Regroup(EscapeUnit(s[0]), Escape(s[1..]), t);
    }
  }

  lemma HeadAndTail(s: Text)
    ensures |s| >= 1 ==> [s[0]] + s[1..] == s
    ensures |s| >= 2 ==> [s[0]] + ([s[1]] + s[2..]) == s
  {}

  lemma PairStep(s: Text, t: Text, rest: Text)
    requires StartsWithPair(s) && ParseChars(Escape(s[2..]) + t) == Some(Parsed(s[2..], rest))
    ensures ParseChars(Escape(s) + t) == Some(Parsed(s, rest))
  {
    EscapeHead(s, t);
    PlainStep(s[1], Escape(s[2..]) + t, s[2..], rest);
    PlainStep(s[0], [s[1]] + (Escape(s[2..]) + t), [s[1]] + s[2..], rest);
    HeadAndTail(s);
  }

  lemma SingleStep(s: Text, t: Text, rest: Text)
    requires s != [] && !StartsWithPair(s) && ParseChars(Escape(s[1..]) + t) == Some(Parsed(s[1..], rest))
    ensures ParseChars(Escape(s) + t) == Some(Parsed(s, rest))
  {
    EscapeHead(s, t);
    UnitStep(s[0], Escape(s[1..]) + t, s[1..], rest);
    HeadAndTail(s);
  }

  lemma {:induction false} CharsRoundTrip(s: Text, rest: Text)
    ensures ParseChars(Escape(s) + ([Quote] + rest)) == Some(Parsed(s, rest))
  {
    var t := [Quote] + rest;
    if s == [] {
      assert t[1..] == rest && Escape(s) + t == t;
    } else if StartsWithPair(s) {
      CharsRoundTrip(s[2..], rest);
      PairStep(s, t, rest);
    } else {
      CharsRoundTrip(s[1..], rest);
      SingleStep(s, t, rest);
    }
  }

  lemma QuotedChars(s: Text, rest: Text)
    ensures (Quoted(s) + rest)[0] == Quote
    ensures ParseChars((Quoted(s) + rest)[1..]) == Some(Parsed(s, rest))
  {
    CharsRoundTrip(s, rest);
    assert (Quoted(s) + rest)[1..] == Escape(s) + ([Quote] + rest);
  }

  lemma StringRoundTrip(s: Text, rest: Text)
    ensures ParseValue(Quoted(s) + rest) == Some(Parsed(String(s), rest))
  {
    QuotedChars(s, rest);
  }

  lemma FieldRoundTrip(f: Field, rest: Text)
    ensures ParseMember(FieldText(f) + rest) == Some(Parsed(Member(f.key, String(f.value)), rest))
  {
    var tail := [0x3A] + Quoted(f.value) + rest;
    assert FieldText(f) + rest == Quoted(f.key) + tail;
    QuotedChars(f.key, tail);
    assert tail[1..] == Quoted(f.value) + rest;
    StringRoundTrip(f.value, rest);
  }

  lemma LastMember(t: Text, m: Member, rest: Text)
    requires ParseMember(t) == Some(Parsed(m, [0x7D] + rest))
    ensures ParseMembers(t) == Some(Parsed([m], rest))
  {
    assert ([0x7D] + rest)[1..] == rest;
  }

  lemma MoreMembers(t: Text, m: Member, tail: Text, more: seq<Member>, rest: Text)
    requires ParseMember(t) == Some(Parsed(m, [0x2C] + tail)) && ParseMembers(tail) == Some(Parsed(more, rest))
    ensures ParseMembers(t) == Some(Parsed([m] + more, rest))
  {
    assert ([0x2C] + tail)[1..] == tail;
  }

  lemma FieldsHead(fields: seq<Field>, t: Text)
    requires fields != []
    ensures |fields| == 1 ==> FieldsText(fields) + t == FieldText(fields[0]) + ([0x7D] + t)
    ensures |fields| > 1 ==>
      FieldsText(fields) + t == FieldText(fields[0]) + ([0x2C] + (FieldsText(fields[1..]) + t))
  {
    if |fields| == 1 {
      Regroup(FieldText(fields[0]), [0x7D], t);
    } else {
      Regroup(FieldText(fields[0]), [0x2C] + FieldsText(fields[1..]), t);
      Regroup([0x2C], FieldsText(fields[1..]), t);
    }
  }

  lemma OneMember(fields: seq<Field>)
    requires |fields| == 1
    ensures Members(fields) == [Member(fields[0].key, String(fields[0].value))]
  {
    assert Members(fields[1..]) == [];
  }

  lemma {:induction false} FieldsRoundTrip(fields: seq<Field>, rest: Text)
    requires fields != []
    ensures ParseMembers(FieldsText(fields) + rest) == Some(Parsed(Members(fields), rest))
  {
    var first := Member(fields[0].key, String(fields[0].value));
    var t := FieldsText(fields) + rest;
    FieldsHead(fields, rest);
    if |fields| == 1 {
      FieldRoundTrip(fields[0], [0x7D] + rest);
      LastMember(t, first, rest);
      OneMember(fields);
    } else {
      FieldsRoundTrip(fields[1..], rest);
      var tail := FieldsText(fields[1..]) + rest;
      FieldRoundTrip(fields[0], [0x2C] + tail);
      MoreMembers(t, first, tail, Members(fields[1..]), rest);
    }
  }

  lemma ObjectOfMembers(t: Text, members: seq<Member>)
    requires t != [] && t[0] == Quote && ParseMembers(t) == Some(Parsed(members, []))
    ensures Parse([0x7B] + t) == Some(Object(members))
  {
    assert ([0x7B] + t)[1..] == t;
  }

  /** Any object of strings survives, whatever its strings are. */
  lemma RoundTrip(fields: seq<Field>)
    ensures Parse(Stringify(fields)) == Some(Object(Members(fields)))
  {
    if fields == [] {
      assert Stringify(fields)[1..] == [0x7D];
    } else {
      FieldsRoundTrip(fields, []);
      assert FieldsText(fields) + [] == FieldsText(fields);
      ObjectOfMembers(FieldsText(fields), Members(fields));
    }
  }

  // ---- what is written is well formed ---------------------------------------------------------

  lemma {:induction false} EscapeWellFormed(s: Text)
    ensures WellFormed(Escape(s))
  {
    if s == [] {
    } else if StartsWithPair(s) {
      EscapeWellFormed(s[2..]);
      assert Escape(s)[2..] == Escape(s[2..]);
    } else {
      EscapeWellFormed(s[1..]);
      PlainIsWellFormed(EscapeUnit(s[0]));
      WellFormedJoin(EscapeUnit(s[0]), Escape(s[1..]));
    }
  }

  lemma QuotedWellFormed(s: Text)
    ensures WellFormed(Quoted(s))
  {
    EscapeWellFormed(s);
    PlainIsWellFormed([Quote]);
    WellFormedJoin([Quote], Escape(s));
    WellFormedJoin([Quote] + Escape(s), [Quote]);
  }

  lemma FieldWellFormed(f: Field)
    ensures WellFormed(FieldText(f))
  {
    QuotedWellFormed(f.key);
    QuotedWellFormed(f.value);
    PlainIsWellFormed([0x3A]);
    WellFormedJoin(Quoted(f.key), [0x3A]);
    WellFormedJoin(Quoted(f.key) + [0x3A], Quoted(f.value));
  }

  lemma {:induction false} FieldsWellFormed(fields: seq<Field>)
    requires fields != []
    ensures WellFormed(FieldsText(fields))
  {
    FieldWellFormed(fields[0]);
    if |fields| == 1 {
      PlainIsWellFormed([0x7D]);
      WellFormedJoin(FieldText(fields[0]), [0x7D]);
    } else {
      FieldsWellFormed(fields[1..]);
      PlainIsWellFormed([0x2C]);
      WellFormedJoin([0x2C], FieldsText(fields[1..]));
      WellFormedJoin(FieldText(fields[0]), [0x2C] + FieldsText(fields[1..]));
    }
  }

  /** Strings with half a surrogate pair in them included. */
  lemma StringifyWellFormed(fields: seq<Field>)
    ensures WellFormed(Stringify(fields))
  {
    PlainIsWellFormed([0x7B]);
    if fields == [] {
      PlainIsWellFormed([0x7D]);
      WellFormedJoin([0x7B], [0x7D]);
    } else {
      FieldsWellFormed(fields);
      WellFormedJoin([0x7B], FieldsText(fields));
    }
  }
}
