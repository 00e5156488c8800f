/** Which bytes hold a nested decoder to its length: told from their tags and lengths alone. */
module NestedFraming {
  import opened Wrappers
  import opened Wire
  import opened Protobuf
  import opened ProtobufTheorems
  import opened PaymentsMessages

  /** None of the fields is a message. The only nested message, Money, is flat. */
  predicate Flat(schema: seq<Kind>) {
    forall i :: 0 <= i < |schema| ==> !schema[i].MessageKind?
  }

  /** What stands first: a whole field, a tag that ends the message, or neither. */
  datatype Piece = Field(rest: seq<Byte>) | Stop(rest: seq<Byte>) | Broken

  /** A known field's payload goes by the wire type of its kind, any other's by that of its tag. */
  function FirstPiece(schema: seq<Kind>, p: seq<Byte>): (piece: Piece)
    ensures !piece.Broken? ==> |piece.rest| < |p|
  {
    match ReadUint32(p)
    case None => Broken
    case Some(tag) =>
      if Knows(schema, tag.value) && tag.value % 8 == 0 then
        (match ReadVarint(tag.rest, 10) case Some(v) => Field(v.rest) case None => Broken)
      else if Knows(schema, tag.value) then
        (match ReadBytes(tag.rest) case Some(v) => Field(v.rest) case None => Broken)
      else if tag.value % 8 == 4 || tag.value == 0 then Stop(tag.rest)
      else (match Skip(tag.value % 8, None, tag.rest) case Some(rest) => Field(rest) case None => Broken)
  }

  /** Whole fields to the end; whole fields up to a stop tag, with these bytes behind it; anything else. */
  datatype Framing = Whole | Stops(behind: seq<Byte>) | Cut

  function FramingOf(schema: seq<Kind>, p: seq<Byte>): Framing
    decreases |p|
  {
    if p == [] then Whole else
    match FirstPiece(schema, p)
    case Field(rest) => FramingOf(schema, rest)
    case Stop(rest) => Stops(rest)
    case Broken => Cut
  }

  // ---- reading on past the end ----------------------------------------------------------------

  /** What cannot be read from `b` alone cannot be read at all, or takes bytes from what follows. */
  lemma {:induction false} ReadVarintBeyond(b: seq<Byte>, room: nat, rest: seq<Byte>)
    requires ReadVarint(b, room).None?
    ensures var r := ReadVarint(b + rest, room); r.None? || |r.value.rest| < |rest|
    decreases room
  {
    if b == [] {
      assert b + rest == rest;
    } else if room > 0 {
      assert (b + rest)[1..] == b[1..] + rest;
      ReadVarintBeyond(b[1..], room - 1, rest);
    }
  }

  lemma ReadBytesBeyond(b: seq<Byte>, rest: seq<Byte>)
    requires ReadBytes(b).None?
    ensures var r := ReadBytes(b + rest); r.None? || |r.value.rest| < |rest|
  {
    if ReadVarint(b, 10).None? {
      ReadVarintBeyond(b, 10, rest);
    } else {
      ReadVarintMore(b, 10, rest);
    }
  }

  lemma {:induction false} SkipVarintBeyond(b: seq<Byte>, rest: seq<Byte>)
    requires SkipVarint(b).None?
    ensures var r := SkipVarint(b + rest); r.None? || |r.value| < |rest|
  {
    if b == [] {
      assert b + rest == rest;
    } else {
      assert (b + rest)[1..] == b[1..] + rest;
      SkipVarintBeyond(b[1..], rest);
    }
  }

  lemma {:induction false} SkipBeyond(wire: nat, number: Option<nat>, b: seq<Byte>, rest: seq<Byte>)
    requires Skip(wire, number, b).None?
    ensures var r := Skip(wire, number, b + rest); r.None? || |r.value| < |rest|
    decreases |b|, 1
  {
    if wire == 0 {
      SkipVarintBeyond(b, rest);
    } else if wire == 2 {
      ReadBytesBeyond(b, rest);
    } else if wire == 3 {
      SkipGroupBeyond(number, b, rest);
    }
  }

  lemma {:induction false} SkipGroupBeyond(number: Option<nat>, b: seq<Byte>, rest: seq<Byte>)
    requires SkipGroup(number, b).None?
    ensures var r := SkipGroup(number, b + rest); r.None? || |r.value| < |rest|
    decreases |b|, 0
  {
    if ReadUint32(b).None? {
      ReadVarintBeyond(b, 10, rest);
    } else {
      ReadVarintMore(b, 10, rest);
      var tag := ReadUint32(b).value;
      var field := Skip(tag.value % 8, Some(tag.value / 8), tag.rest);
      if field.Some? {
        SkipMore(tag.value % 8, Some(tag.value / 8), tag.rest, rest);
        if tag.value % 8 != 4 && SkipGroup(number, field.value).None? {
          SkipGroupBeyond(number, field.value, rest);
        }
      } else {
        SkipBeyond(tag.value % 8, Some(tag.value / 8), tag.rest, rest);
      }
    }
  }

  // ---- one turn of the loop -------------------------------------------------------------------

  /** The turn leaves exactly these bytes. */
  predicate GoesOn(turn: Turn, rest: seq<Byte>) {
    turn.Taken? && turn.rest == rest
  }

  /** The turn throws or leaves less than what follows the payload. */
  predicate Overruns(turn: Turn, rest: seq<Byte>) {
    turn.Thrown? || |turn.rest| < |rest|
  }

  lemma KnownPiece(schema: seq<Kind>, p: seq<Byte>, rest: seq<Byte>, record: Record)
    requires Flat(schema) && IsRecord(schema, record)
    requires ReadUint32(p).Some? && Knows(schema, ReadUint32(p).value.value)
    ensures var piece, turn := FirstPiece(schema, p), TakeField(schema, p + rest, record);
      && !piece.Stop?
      && (piece.Field? ==> GoesOn(turn, piece.rest + rest))
      && (piece.Broken? ==> Overruns(turn, rest))
  {
    ReadVarintMore(p, 10, rest);
    var tag := ReadUint32(p).value;
    assert !schema[tag.value / 8 - 1].MessageKind?;
    if tag.value % 8 == 0 {
      if ReadVarint(tag.rest, 10).Some? {
        ReadVarintMore(tag.rest, 10, rest);
      } else {
        ReadVarintBeyond(tag.rest, 10, rest);
      }
    } else if ReadBytes(tag.rest).Some? {
      ReadBytesMore(tag.rest, rest);
    } else {
      ReadBytesBeyond(tag.rest, rest);
    }
  }

  lemma PieceIsTurn(schema: seq<Kind>, p: seq<Byte>, rest: seq<Byte>, record: Record)
    requires Flat(schema) && IsRecord(schema, record)
    ensures var piece, turn := FirstPiece(schema, p), TakeField(schema, p + rest, record);
      && (piece.Field? ==> GoesOn(turn, piece.rest + rest))
      && (piece.Stop? ==> turn == Stopped(piece.rest + rest))
      && (piece.Broken? ==> Overruns(turn, rest))
  {
    if ReadUint32(p).None? {
      ReadVarintBeyond(p, 10, rest);
    } else if Knows(schema, ReadUint32(p).value.value) {
      KnownPiece(schema, p, rest, record);
    } else {
      ReadVarintMore(p, 10, rest);
      var tag := ReadUint32(p).value;
      if Skip(tag.value % 8, None, tag.rest).Some? {
        SkipMore(tag.value % 8, None, tag.rest, rest);
      } else {
        SkipBeyond(tag.value % 8, None, tag.rest, rest);
      }
    }
  }

  // ---- the whole loop -------------------------------------------------------------------------

  /** Where the loop ends: behind the payload, before its end, or past it if it does not throw. */
  predicate EndsBy(framing: Framing, d: Decoded, rest: seq<Byte>) {
    match framing
    case Whole => d.Some? && d.value.rest == rest
    case Stops(behind) => d.Some? && d.value.rest == behind + rest
    case Cut => d.None? || |d.value.rest| < |rest|
  }

  lemma {:induction false} LoopEndsBy(schema: seq<Kind>, p: seq<Byte>, rest: seq<Byte>, record: Record)
    requires Flat(schema) && IsRecord(schema, record)
    ensures EndsBy(FramingOf(schema, p), DecodeFrom(schema, p + rest, |p|, record), rest)
    decreases |p|
  {
    LoopUnfolds(schema, p + rest, |p|, record);
    if p == [] {
      assert p + rest == rest;
    } else {
      PieceIsTurn(schema, p, rest, record);
      var piece, turn := FirstPiece(schema, p), TakeField(schema, p + rest, record);
      if piece.Field? {
        LoopEndsBy(schema, piece.rest, rest, turn.record);
      } else if piece.Broken? && turn.Taken? {
        LoopUnfolds(schema, turn.rest, |turn.rest| - |rest|, turn.record);
      }
    }
  }

  // ---- whole fields, one after another --------------------------------------------------------

  /** These bytes are one whole field, its varints minimal or not. */
  predicate IsField(schema: seq<Kind>, f: seq<Byte>) {
    FirstPiece(schema, f) == Field([])
  }

  function Joined(fs: seq<seq<Byte>>): seq<Byte> {
    if fs == [] then [] else fs[0] + Joined(fs[1..])
  }

  predicate AreFields(schema: seq<Kind>, fs: seq<seq<Byte>>) {
    forall i :: 0 <= i < |fs| ==> IsField(schema, fs[i])
  }

  /** Where a field ends does not depend on what follows it. */
  lemma FieldMore(schema: seq<Kind>, f: seq<Byte>, rest: seq<Byte>)
    requires Flat(schema)
    ensures IsField(schema, f) <==> FirstPiece(schema, f + rest) == Field(rest)
  {
    PieceIsTurn(schema, f, rest, Defaults(schema));
    PieceIsTurn(schema, f + rest, [], Defaults(schema));
    var piece := FirstPiece(schema, f + rest);
    assert (f + rest) + [] == f + rest && [] + rest == rest;
    assert !piece.Broken? ==> piece.rest + [] == piece.rest;
  }

  lemma {:induction false} FieldsAreWhole(schema: seq<Kind>, fs: seq<seq<Byte>>)
    requires Flat(schema) && AreFields(schema, fs)
    ensures FramingOf(schema, Joined(fs)) == Whole
  {
    if fs != [] {
      FieldMore(schema, fs[0], Joined(fs[1..]));
      FieldsAreWhole(schema, fs[1..]);
    }
  }

  lemma PieceLeavesSuffix(schema: seq<Kind>, p: seq<Byte>)
    requires FirstPiece(schema, p).Field?
    ensures IsSuffix(FirstPiece(schema, p).rest, p)
  {
    ReadLeavesSuffix(p);
    var tag := ReadUint32(p).value;
    ReadLeavesSuffix(tag.rest);
    if Knows(schema, tag.value) && tag.value % 8 == 0 {
      VarintLeavesSuffix(tag.rest, 10);
    } else if !Knows(schema, tag.value) {
      SkipLeavesSuffix(tag.value % 8, None, tag.rest);
    }
    SuffixOfSuffix(FirstPiece(schema, p).rest, tag.rest, p);
  }
  lemma {:induction false} WholeSplits(schema: seq<Kind>, p: seq<Byte>) returns (fs: seq<seq<Byte>>)
    requires Flat(schema) && FramingOf(schema, p) == Whole
    ensures AreFields(schema, fs) && Joined(fs) == p
    decreases |p|
  {
    if p == [] {
      fs := [];
    } else {
      var rest := FirstPiece(schema, p).rest;
      PieceLeavesSuffix(schema, p);
      var f := p[..|p| - |rest|];
      assert p == f + rest;
      FieldMore(schema, f, rest);
      var more := WholeSplits(schema, rest);
      fs := [f] + more;
      assert fs[1..] == more;
    }
  }

  /** The payload is whole exactly when it is such fields, one after another. */
  lemma WholeIsFields(schema: seq<Kind>, p: seq<Byte>)
    requires Flat(schema)
    ensures FramingOf(schema, p) == Whole <==> exists fs :: AreFields(schema, fs) && Joined(fs) == p
  {
    if FramingOf(schema, p) == Whole {
      var fs := WholeSplits(schema, p);
    } else if fs :| AreFields(schema, fs) && Joined(fs) == p {
      FieldsAreWhole(schema, fs);
    }
  }

  // ---- the theorem ----------------------------------------------------------------------------

  /** The nested read succeeds and leaves exactly these bytes. */
  predicate EndsAt(fields: seq<Kind>, b: seq<Byte>, rest: seq<Byte>) {
    var r := ReadValue(MessageKind(fields), b);
    r.Some? && r.value.rest == rest
  }

  /**
     For a payload of any bytes, a prefix that says its length in however many bytes, and whatever follows:
     the nested read ends right behind the payload if and only if the payload is made of whole fields, or of
     whole fields and one stop tag at its very end. A stop tag before that ends it early; all else makes it
     throw or read on into what follows.
   */
  lemma NestedEndsExactly(fields: seq<Kind>, prefix: seq<Byte>, p: seq<Byte>, rest: seq<Byte>)
    requires Flat(fields) && ReadUint32(prefix) == Some(Read(|p|, []))
    ensures EndsAt(fields, prefix + (p + rest), rest) <==> FramingOf(fields, p) in {Whole, Stops([])}
    ensures (exists behind :: EndsAt(fields, prefix + (p + rest), behind + rest)) <==> !FramingOf(fields, p).Cut?
  {
    ReadVarintMore(prefix, 10, p + rest);
    assert [] + (p + rest) == p + rest;
    LoopEndsBy(fields, p, rest, Defaults(fields));
    var framing, d := FramingOf(fields, p), DecodeFrom(fields, p + rest, |p|, Defaults(fields));
    assert d.Some? ==> ReadValue(MessageKind(fields), prefix + (p + rest)) == Some(Read(M(d.value.value), d.value.rest));
    assert d.None? ==> ReadValue(MessageKind(fields), prefix + (p + rest)) == None;
    assert [] + rest == rest;
    assert framing.Whole? ==> EndsAt(fields, prefix + (p + rest), [] + rest);
    assert framing.Stops? ==> EndsAt(fields, prefix + (p + rest), framing.behind + rest);
  }
}
