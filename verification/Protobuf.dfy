/** Messages as records over a list of field kinds: how they are encoded, and what a decoder makes of bytes. */
module Protobuf {
  import opened Wrappers
  import Utf8
  import opened Wire

  /** The kind of a field; its number is its place in the message's list of kinds, from 1. */
  datatype Kind = StringKind | Int32Kind | BoolKind | MessageKind(fields: seq<Kind>)

  datatype Value = S(s: Text) | I(i: Int32) | B(b: bool) | Absent | M(m: Record)

  type Record = seq<Value>

  predicate Fits(kind: Kind, v: Value)
    decreases kind
  {
    match kind
    case StringKind => v.S?
    case Int32Kind => v.I?
    case BoolKind => v.B?
    case MessageKind(fields) => v.Absent? || (v.M? && IsRecord(fields, v.m))
  }

  predicate IsRecord(schema: seq<Kind>, record: Record)
    decreases schema
  {
    |record| == |schema| && forall i :: 0 <= i < |schema| ==> Fits(schema[i], record[i])
  }

  function Default(kind: Kind): (v: Value)
    ensures Fits(kind, v)
  {
    match kind
    case StringKind => S([])
    case Int32Kind => I(0)
    case BoolKind => B(false)
    case MessageKind(_) => Absent
  }

  function Defaults(schema: seq<Kind>): (record: Record)
    ensures IsRecord(schema, record)
  {
    seq(|schema|, i requires 0 <= i < |schema| => Default(schema[i]))
  }

  predicate IsDefault(v: Value) {
    v == S([]) || v == I(0) || v == B(false) || v == Absent
  }

  // ---- encoding -------------------------------------------------------------------------------

  /** 0 for a varint, 2 for length-delimited bytes. */
  function WireType(v: Value): nat {
    if v.S? || v.M? then 2 else 0
  }

  function Tag(number: nat, wire: nat): nat {
    8 * number + wire
  }

  function ValueBytes(v: Value): seq<Byte>
    decreases v, 0
  {
    match v
    case S(s) => Delimited(Utf8.Encode(s))
    case I(i) => Int32Bytes(i)
    case B(b) => BoolBytes(b)
    case Absent => []
    case M(m) => Delimited(EncodeFrom(m, 1))
  }

  function FieldBytes(number: nat, v: Value): seq<Byte>
    decreases v, 1
  {
    if IsDefault(v) then [] else Varint(Tag(number, WireType(v))) + ValueBytes(v)
  }

  /** The fields in order, those with their default value left out. */
  function EncodeFrom(record: Record, number: nat): seq<Byte>
    decreases record
  {
    if record == [] then [] else FieldBytes(number, record[0]) + EncodeFrom(record[1..], number + 1)
  }

  function Encode(record: Record): seq<Byte> {
    EncodeFrom(record, 1)
  }

  // ---- decoding -------------------------------------------------------------------------------

  /** A message, and the bytes its decoder left unread. */
  type Decoded = Option<Read<Record>>

  function KindWire(kind: Kind): nat {
    if kind.StringKind? || kind.MessageKind? then 2 else 0
  }

  /** The tag is one of the message's own. */
  predicate Knows(schema: seq<Kind>, tag: nat) {
    1 <= tag / 8 <= |schema| && tag == Tag(tag / 8, KindWire(schema[tag / 8 - 1]))
  }

  function ReadValue(kind: Kind, b: seq<Byte>): (r: Option<Read<Value>>)
    ensures r.Some? ==> |r.value.rest| < |b| && Fits(kind, r.value.value)
    decreases kind, |b|
  {
    match kind
    case StringKind => (match ReadString(b) case Some(s) => Some(Read(S(s.value), s.rest)) case None => None)
    case Int32Kind => (match ReadInt32(b) case Some(i) => Some(Read(I(i.value), i.rest)) case None => None)
    case BoolKind => (match ReadBool(b) case Some(v) => Some(Read(B(v.value), v.rest)) case None => None)
    case MessageKind(fields) =>
      match ReadUint32(b)
      case None => None
      case Some(length) =>
        match DecodeFrom(fields, length.rest, length.value, Defaults(fields))
        case Some(m) => Some(Read(M(m.value), m.rest))
        case None => None
  }

  /** One turn of the decoder's loop: an exception, the end, or the message and the bytes to go on with. */
  datatype Turn = Thrown | Stopped(rest: seq<Byte>) | Taken(record: Record, rest: seq<Byte>)

  /** A known tag sets its field, the end of a group or a zero tag stops, any other field is skipped. */
  function TakeField(schema: seq<Kind>, b: seq<Byte>, record: Record): (turn: Turn)
    requires IsRecord(schema, record)
    ensures turn.Taken? ==> |turn.rest| < |b| && IsRecord(schema, turn.record)
    ensures turn.Stopped? ==> |turn.rest| < |b|
    decreases schema, |b|, 0
  {
    match ReadUint32(b)
    case None => Thrown
    case Some(tag) =>
      if Knows(schema, tag.value) then
        match ReadValue(schema[tag.value / 8 - 1], tag.rest)
        case None => Thrown
        case Some(v) => Taken(record[tag.value / 8 - 1 := v.value], v.rest)
      else if tag.value % 8 == 4 || tag.value == 0 then Stopped(tag.rest)
      else match Skip(tag.value % 8, None, tag.rest)
           case None => Thrown
           case Some(rest) => Taken(record, rest)
  }

  /** The decoder's loop with `left` bytes to go. None stands for an exception. */
  function DecodeFrom(schema: seq<Kind>, b: seq<Byte>, left: int, record: Record): (r: Decoded)
    requires IsRecord(schema, record)
    ensures r.Some? ==> |r.value.rest| <= |b| && IsRecord(schema, r.value.value)
    decreases schema, |b|, 1
  {
    if left <= 0 then Some(Read(record, b)) else
    match TakeField(schema, b, record)
    case Thrown => None
    case Stopped(rest) => Some(Read(record, rest))
    case Taken(record', rest) => DecodeFrom(schema, rest, left - (|b| - |rest|), record')
  }

  /** A whole buffer as one message. */
  function Decode(schema: seq<Kind>, b: seq<Byte>): Option<Record> {
    match DecodeFrom(schema, b, |b|, Defaults(schema))
    case Some(m) => Some(m.value)
    case None => None
  }

  // ---- field occurrences ----------------------------------------------------------------------

  /** One field as it stands in the bytes; of a nested message, the fields inside it. */
  datatype Occurrence =
    | Scalar(number: nat, v: Value)
    | Nested(number: nat, inner: seq<Occurrence>)
    | Unknown(tag: nat, body: seq<Byte>)

  function Render(occs: seq<Occurrence>): seq<Byte>
    decreases occs
  {
    if occs == [] then [] else RenderOne(occs[0]) + Render(occs[1..])
  }

  function RenderOne(occ: Occurrence): (r: seq<Byte>)
    ensures |r| >= 1
    decreases occ
  {
    match occ
    case Scalar(number, v) => Varint(Tag(number, WireType(v))) + ValueBytes(v)
    case Nested(number, inner) => Varint(Tag(number, 2)) + Delimited(Render(inner))
    case Unknown(tag, body) => Varint(tag) + body
  }

  /** Field numbers go up to 2^29 - 1. */
  const NumberLimit := 0x2000_0000

  /** The field belongs to the message, or is one that its decoder skips. */
  predicate Belongs(schema: seq<Kind>, occ: Occurrence)
    decreases occ
  {
    match occ
    case Scalar(number, v) =>
      1 <= number <= |schema| && number < NumberLimit && !schema[number - 1].MessageKind? && Fits(schema[number - 1], v)
    case Nested(number, inner) =>
      && 1 <= number <= |schema| && number < NumberLimit && schema[number - 1].MessageKind?
      && AllBelong(schema[number - 1].fields, inner)
    case Unknown(tag, body) => 0 < tag < Two32 && !Knows(schema, tag) && Payload(tag % 8, body)
  }

  predicate AllBelong(schema: seq<Kind>, occs: seq<Occurrence>)
    decreases occs
  {
    occs == [] || (Belongs(schema, occs[0]) && AllBelong(schema, occs[1..]))
  }

  /** A string as it comes back: half pairs are replaced, a byte order mark in front is gone. */
  function Repaired(v: Value): Value
    decreases v
  {
    match v
    case S(s) => S(Utf8.DecodeText(Utf8.Encode(s)))
    case M(m) => M(RepairedRecord(m))
    case _ => v
  }

  function RepairedRecord(record: Record): (r: Record)
    ensures |r| == |record|
    decreases record
  {
    if record == [] then [] else [Repaired(record[0])] + RepairedRecord(record[1..])
  }

  /** What the fields make of a record: each one replaces what was there, a nested message as a whole. */
  function Overlay(schema: seq<Kind>, record: Record, occs: seq<Occurrence>): (r: Record)
    requires IsRecord(schema, record) && AllBelong(schema, occs)
    ensures IsRecord(schema, r)
    decreases occs
  {
    if occs == [] then record else Overlay(schema, OverlayOne(schema, record, occs[0]), occs[1..])
  }

  function OverlayOne(schema: seq<Kind>, record: Record, occ: Occurrence): (r: Record)
    requires IsRecord(schema, record) && Belongs(schema, occ)
    ensures IsRecord(schema, r)
    decreases occ
  {
    match occ
    case Scalar(number, v) => record[number - 1 := Repaired(v)]
    case Nested(number, inner) =>
      var fields := schema[number - 1].fields;
      record[number - 1 := M(Overlay(fields, Defaults(fields), inner))]
    case Unknown(_, _) => record
  }
}
