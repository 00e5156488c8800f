/** What the decoder makes of rendered fields, and so of encoded, joined and extended messages. */
module ProtobufTheorems {
  import opened Wrappers
  import Utf8
  import opened Wire
  import opened Protobuf

  // ---- one field ------------------------------------------------------------------------------

  lemma ScalarRead(kind: Kind, v: Value, rest: seq<Byte>)
    requires Fits(kind, v) && !kind.MessageKind? && |ValueBytes(v)| < Two32
    ensures ReadValue(kind, ValueBytes(v) + rest) == Some(Read(Repaired(v), rest))
  {
    match v
    case S(s) => BytesRoundTrip(Utf8.Encode(s), rest);
    case I(i) => Int32RoundTrip(i, rest);
    case B(b) => BoolRoundTrip(b, rest);
  }

  lemma Regroup(a: seq<Byte>, b: seq<Byte>, c: seq<Byte>)
    ensures (a + b) + c == a + (b + c)
  {}

  /** A tag in front of a known field's bytes: the loop goes on behind them with the field set. */
  lemma KnownTurn(schema: seq<Kind>, number: nat, body: seq<Byte>, v: Value, rest: seq<Byte>, record: Record)
    requires IsRecord(schema, record) && 1 <= number <= |schema| && number < NumberLimit
    requires ReadValue(schema[number - 1], body + rest) == Some(Read(v, rest))
    ensures TakeField(schema, (Varint(Tag(number, KindWire(schema[number - 1]))) + body) + rest, record)
         == Taken(record[number - 1 := v], rest)
  {
    var tag := Tag(number, KindWire(schema[number - 1]));
    Uint32RoundTrip(tag, body + rest);
    Regroup(Varint(tag), body, rest);
    assert tag / 8 == number;
  }

  lemma UnknownTurn(schema: seq<Kind>, tag: nat, body: seq<Byte>, rest: seq<Byte>, record: Record)
    requires IsRecord(schema, record) && Belongs(schema, Unknown(tag, body))
    ensures TakeField(schema, (Varint(tag) + body) + rest, record) == Taken(record, rest)
  {
    Uint32RoundTrip(tag, body + rest);
    Regroup(Varint(tag), body, rest);
    SkipRoundTrip(tag % 8, body, rest);
  }

  lemma NestedRead(fields: seq<Kind>, inner: seq<Byte>, m: Record, rest: seq<Byte>)
    requires |inner| < Two32
    requires DecodeFrom(fields, inner + rest, |inner|, Defaults(fields)) == Some(Read(m, rest))
    ensures ReadValue(MessageKind(fields), Delimited(inner) + rest) == Some(Read(M(m), rest))
  {
    Uint32RoundTrip(|inner|, inner + rest);
    Regroup(Varint(|inner|), inner, rest);
  }

  lemma {:induction false} RenderTurn(schema: seq<Kind>, occ: Occurrence, rest: seq<Byte>, record: Record)
    requires IsRecord(schema, record) && Belongs(schema, occ) && |RenderOne(occ)| < Two32
    ensures TakeField(schema, RenderOne(occ) + rest, record) == Taken(OverlayOne(schema, record, occ), rest)
    decreases occ
  {
    match occ
    case Scalar(number, v) =>
      ScalarRead(schema[number - 1], v, rest);
      KnownTurn(schema, number, ValueBytes(v), Repaired(v), rest, record);
    case Nested(number, inner) =>
      var fields := schema[number - 1].fields;
      Rendered(fields, inner, rest, Defaults(fields));
      NestedRead(fields, Render(inner), Overlay(fields, Defaults(fields), inner), rest);
      KnownTurn(schema, number, Delimited(Render(inner)), M(Overlay(fields, Defaults(fields), inner)), rest, record);
    case Unknown(tag, body) =>
      UnknownTurn(schema, tag, body, rest, record);
  }

  // ---- any list of fields ---------------------------------------------------------------------

  /**
     The decoder reads any list of fields, whatever is spliced in between, as the record they overlay,
     and stops exactly behind them, whatever follows.
   */
  lemma {:induction false} Rendered(schema: seq<Kind>, occs: seq<Occurrence>, rest: seq<Byte>, record: Record)
    requires IsRecord(schema, record) && AllBelong(schema, occs) && |Render(occs)| < Two32
    ensures DecodeFrom(schema, Render(occs) + rest, |Render(occs)|, record)
         == Some(Read(Overlay(schema, record, occs), rest))
    decreases occs
  {
    if occs == [] {
      assert Render(occs) + rest == rest;
    } else {
      var tail := Render(occs[1..]);
      RenderTurn(schema, occs[0], tail + rest, record);
      Rendered(schema, occs[1..], rest, OverlayOne(schema, record, occs[0]));
      Regroup(RenderOne(occs[0]), tail, rest);
    }
  }

  lemma DecodeRendered(schema: seq<Kind>, occs: seq<Occurrence>)
    requires AllBelong(schema, occs) && |Render(occs)| < Two32
    ensures Decode(schema, Render(occs)) == Some(Overlay(schema, Defaults(schema), occs))
  {
    Rendered(schema, occs, [], Defaults(schema));
    assert Render(occs) + [] == Render(occs);
  }

  // ---- an encoded message is such a list ------------------------------------------------------

  function OccurrenceOf(number: nat, v: Value): seq<Occurrence>
    decreases v, 0
  {
    if IsDefault(v) then []
    else if v.M? then [Nested(number, Occurrences(v.m, 1))]
    else [Scalar(number, v)]
  }

  function Occurrences(record: Record, number: nat): seq<Occurrence>
    decreases record
  {
    if record == [] then [] else OccurrenceOf(number, record[0]) + Occurrences(record[1..], number + 1)
  }

  lemma {:induction false} RenderJoin(a: seq<Occurrence>, b: seq<Occurrence>)
    ensures Render(a + b) == Render(a) + Render(b)
  {
    if a == [] {
      assert a + b == b;
    } else {
      RenderJoin(a[1..], b);
      assert (a + b)[1..] == a[1..] + b;
      Regroup(RenderOne(a[0]), Render(a[1..]), Render(b));
    }
  }

  lemma RenderSingle(occ: Occurrence)
    ensures Render([occ]) == RenderOne(occ)
  {
    assert RenderOne(occ) + [] == RenderOne(occ);
  }

  lemma {:induction false} EncodedField(number: nat, v: Value)
    ensures FieldBytes(number, v) == Render(OccurrenceOf(number, v))
    decreases v, 0
  {
    if !IsDefault(v) {
      if v.M? {
        EncodedIsRendered(v.m, 1);
      }
      RenderSingle(OccurrenceOf(number, v)[0]);
    }
  }

  lemma {:induction false} EncodedIsRendered(record: Record, number: nat)
    ensures EncodeFrom(record, number) == Render(Occurrences(record, number))
    decreases record
  {
    if record != [] {
      EncodedField(number, record[0]);
      EncodedIsRendered(record[1..], number + 1);
      RenderJoin(OccurrenceOf(number, record[0]), Occurrences(record[1..], number + 1));
    }
  }

  lemma {:induction false} BelongJoin(schema: seq<Kind>, a: seq<Occurrence>, b: seq<Occurrence>)
    requires AllBelong(schema, a) && AllBelong(schema, b)
    ensures AllBelong(schema, a + b)
  {
    if a == [] {
      assert a + b == b;
    } else {
      BelongJoin(schema, a[1..], b);
      assert (a + b)[1..] == a[1..] + b;
    }
  }

  lemma {:induction false} OverlayJoin(schema: seq<Kind>, record: Record, a: seq<Occurrence>, b: seq<Occurrence>)
    requires IsRecord(schema, record) && AllBelong(schema, a) && AllBelong(schema, b)
    ensures AllBelong(schema, a + b)
    ensures Overlay(schema, record, a + b) == Overlay(schema, Overlay(schema, record, a), b)
    decreases a
  {
    BelongJoin(schema, a, b);
    if a == [] {
      assert a + b == b;
    } else {
      OverlayJoin(schema, OverlayOne(schema, record, a[0]), a[1..], b);
      assert (a + b)[1..] == a[1..] + b;
    }
  }

  /** No message, nor one nested in it, has more fields than there are field numbers. */
  predicate Numbered(schema: seq<Kind>)
    decreases schema
  {
    |schema| < NumberLimit
    && forall i :: 0 <= i < |schema| && schema[i].MessageKind? ==> Numbered(schema[i].fields)
  }

  lemma {:induction false} FieldBelongs(schema: seq<Kind>, k: nat, v: Value)
    requires Numbered(schema) && k < |schema| && Fits(schema[k], v)
    ensures AllBelong(schema, OccurrenceOf(k + 1, v))
    decreases schema, 1, 0
  {
    assert AllBelong(schema, []);
    if v.M? {
      var fields := schema[k].fields;
      OccurrencesBelong(fields, v.m, 0);
      assert v.m[0..] == v.m;
      assert Belongs(schema, Nested(k + 1, Occurrences(v.m, 1)));
    } else if !IsDefault(v) {
      assert Belongs(schema, Scalar(k + 1, v));
    }
  }

  lemma {:induction false} OccurrencesBelong(schema: seq<Kind>, record: Record, k: nat)
    requires IsRecord(schema, record) && Numbered(schema) && k <= |record|
    ensures AllBelong(schema, Occurrences(record[k..], k + 1))
    decreases schema, 2, |record| - k
  {
    if k < |record| {
      assert Fits(schema[k], record[k]);
      FieldBelongs(schema, k, record[k]);
      OccurrencesBelong(schema, record, k + 1);
      assert record[k..][1..] == record[k + 1..];
      BelongJoin(schema, OccurrenceOf(k + 1, record[k]), Occurrences(record[k + 1..], k + 2));
    }
  }

  // ---- an encoded message, alone or behind another --------------------------------------------

  /** A record laid over another: its default fields leave what was there, the others replace it whole. */
  function Laid(record: Record, over: Record): (r: Record)
    requires |record| == |over|
    ensures |r| == |record|
    ensures forall i :: 0 <= i < |r| ==> r[i] == if IsDefault(over[i]) then record[i] else Repaired(over[i])
  {
    seq(|record|, i requires 0 <= i < |record| => if IsDefault(over[i]) then record[i] else Repaired(over[i]))
  }

  lemma {:induction false} RepairedAt(record: Record, i: nat)
    requires i < |record|
    ensures RepairedRecord(record)[i] == Repaired(record[i])
  {
    if i > 0 {
      RepairedAt(record[1..], i - 1);
    }
  }

  lemma LaidOnDefaults(schema: seq<Kind>, record: Record)
    requires IsRecord(schema, record)
    ensures Laid(Defaults(schema), record) == RepairedRecord(record)
  {
    forall i | 0 <= i < |record| ensures Laid(Defaults(schema), record)[i] == RepairedRecord(record)[i] {
      RepairedAt(record, i);
      assert Fits(schema[i], record[i]) && Fits(schema[i], Default(schema[i]));
      if IsDefault(record[i]) {
        assert record[i] == Default(schema[i]);
        assert Utf8.DecodeText(Utf8.Encode([])) == [];
      }
    }
  }

  lemma OverlaySingle(schema: seq<Kind>, record: Record, occ: Occurrence)
    requires IsRecord(schema, record) && Belongs(schema, occ)
    ensures AllBelong(schema, [occ]) && Overlay(schema, record, [occ]) == OverlayOne(schema, record, occ)
  {
    assert AllBelong(schema, [occ][1..]);
  }

  lemma {:induction false} OverlayField(schema: seq<Kind>, record: Record, k: nat, v: Value)
    requires IsRecord(schema, record) && Numbered(schema) && k < |schema| && Fits(schema[k], v)
    requires AllBelong(schema, OccurrenceOf(k + 1, v))
    ensures Overlay(schema, record, OccurrenceOf(k + 1, v))
         == if IsDefault(v) then record else record[k := Repaired(v)]
    decreases schema, 1, 0
  {
    if !IsDefault(v) {
      OverlaySingle(schema, record, OccurrenceOf(k + 1, v)[0]);
    }
    if v.M? {
      var fields := schema[k].fields;
      assert v.m[0..] == v.m;
      var laid := Laid(Defaults(fields), v.m);
      OverlayEncoded(fields, Defaults(fields), v.m, 0);
      LaidOnDefaults(fields, v.m);
      assert Defaults(fields)[..0] + laid[0..] == laid;
    }
  }

  lemma LaidStep(record: Record, over: Record, k: nat)
    requires k < |over| == |record|
    ensures var next := if IsDefault(over[k]) then record else record[k := Repaired(over[k])];
      next[..k + 1] + Laid(next, over)[k + 1..] == record[..k] + Laid(record, over)[k..]
  {}

  /** The fields of a record from `k` on, laid over another record. */
  lemma {:induction false} OverlayEncoded(schema: seq<Kind>, record: Record, over: Record, k: nat)
    requires IsRecord(schema, record) && IsRecord(schema, over) && Numbered(schema) && k <= |over|
    ensures AllBelong(schema, Occurrences(over[k..], k + 1))
    ensures Overlay(schema, record, Occurrences(over[k..], k + 1)) == record[..k] + Laid(record, over)[k..]
    decreases schema, 2, |over| - k
  {
    OccurrencesBelong(schema, over, k);
    if k < |over| {
      FieldBelongs(schema, k, over[k]);
      assert over[k..][1..] == over[k + 1..];
      var next := if IsDefault(over[k]) then record else record[k := Repaired(over[k])];
      OverlayField(schema, record, k, over[k]);
      OverlayEncoded(schema, next, over, k + 1);
      OverlayJoin(schema, record, OccurrenceOf(k + 1, over[k]), Occurrences(over[k + 1..], k + 2));
      LaidStep(record, over, k);
    }
  }

  lemma EncodedOverlay(schema: seq<Kind>, record: Record, over: Record)
    requires IsRecord(schema, record) && IsRecord(schema, over) && Numbered(schema)
    ensures AllBelong(schema, Occurrences(over, 1)) && Encode(over) == Render(Occurrences(over, 1))
    ensures Overlay(schema, record, Occurrences(over, 1)) == Laid(record, over)
  {
    assert over[0..] == over && record[..0] + Laid(record, over)[0..] == Laid(record, over);
    OverlayEncoded(schema, record, over, 0);
    EncodedIsRendered(over, 1);
  }

  // ---- the theorems ---------------------------------------------------------------------------

  /** A string in the message has half a surrogate pair nowhere and no byte order mark in front. */
  predicate TextSound(v: Value)
    decreases v
  {
    (v.S? ==> Utf8.WellFormed(v.s) && !Utf8.Marked(v.s)) && (v.M? ==> AllTextSound(v.m))
  }

  predicate AllTextSound(record: Record)
    decreases record
  {
    record == [] || (TextSound(record[0]) && AllTextSound(record[1..]))
  }

  lemma {:induction false} RepairKeeps(v: Value)
    ensures Repaired(v) == v <==> TextSound(v)
    decreases v, 0
  {
    if v.S? {
      Utf8.TextSurvivesExactly(v.s);
    } else if v.M? {
      RepairKeepsAll(v.m);
    }
  }

  lemma {:induction false} RepairKeepsAll(record: Record)
    ensures RepairedRecord(record) == record <==> AllTextSound(record)
    decreases record
  {
    if record != [] {
      RepairKeeps(record[0]);
      RepairKeepsAll(record[1..]);
      assert record == [record[0]] + record[1..];
      assert RepairedRecord(record)[1..] == RepairedRecord(record[1..]);
      assert RepairedRecord(record)[0] == Repaired(record[0]);
    }
  }

  /**
     Decoding gives back what was encoded, but for its strings: half pairs are replaced and a byte order
     mark in front is dropped. So it is exactly what was encoded if there are none of either.
   */
  lemma RoundTrip(schema: seq<Kind>, record: Record)
    requires IsRecord(schema, record) && Numbered(schema) && |Encode(record)| < Two32
    ensures Decode(schema, Encode(record)) == Some(RepairedRecord(record))
    ensures Decode(schema, Encode(record)) == Some(record) <==> AllTextSound(record)
  {
    EncodedOverlay(schema, Defaults(schema), record);
    DecodeRendered(schema, Occurrences(record, 1));
    LaidOnDefaults(schema, record);
    RepairKeepsAll(record);
  }

  /** Followed by other bytes, an encoded message is read to its own end and not beyond. */
  lemma NestedConsumesItsPrefix(fields: seq<Kind>, record: Record, rest: seq<Byte>)
    requires IsRecord(fields, record) && Numbered(fields) && |Encode(record)| < Two32
    ensures ReadValue(MessageKind(fields), Delimited(Encode(record)) + rest)
         == Some(Read(M(RepairedRecord(record)), rest))
  {
    EncodedOverlay(fields, Defaults(fields), record);
    LaidOnDefaults(fields, record);
    Rendered(fields, Occurrences(record, 1), rest, Defaults(fields));
    NestedRead(fields, Encode(record), RepairedRecord(record), rest);
  }

  /** Two encoded messages in a row decode as the first with the second laid over it. */
  lemma Concatenation(schema: seq<Kind>, a: Record, b: Record)
    requires IsRecord(schema, a) && IsRecord(schema, b) && Numbered(schema)
    requires |Encode(a) + Encode(b)| < Two32
    ensures Decode(schema, Encode(a) + Encode(b)) == Some(Laid(RepairedRecord(a), b))
  {
    EncodedOverlay(schema, Defaults(schema), a);
    LaidOnDefaults(schema, a);
    var first := Overlay(schema, Defaults(schema), Occurrences(a, 1));
    EncodedOverlay(schema, first, b);
    RenderJoin(Occurrences(a, 1), Occurrences(b, 1));
    OverlayJoin(schema, Defaults(schema), Occurrences(a, 1), Occurrences(b, 1));
    DecodeRendered(schema, Occurrences(a, 1) + Occurrences(b, 1));
  }

  /** A field the message does not know changes nothing, wherever among its fields it is spliced in. */
  lemma Splicing(schema: seq<Kind>, a: seq<Occurrence>, tag: nat, body: seq<Byte>, b: seq<Occurrence>)
    requires AllBelong(schema, a) && AllBelong(schema, b) && Belongs(schema, Unknown(tag, body))
    requires |Render(a) + (Varint(tag) + body) + Render(b)| < Two32
    ensures Decode(schema, Render(a) + (Varint(tag) + body) + Render(b)) == Decode(schema, Render(a) + Render(b))
  {
    var unknown := Unknown(tag, body);
    assert AllBelong(schema, []) && [unknown][1..] == [];
    RenderSingle(unknown);
    RenderJoin(a, [unknown]);
    RenderJoin(a + [unknown], b);
    RenderJoin(a, b);
    var base := Defaults(schema);
    OverlaySingle(schema, Overlay(schema, base, a), unknown);
    OverlayJoin(schema, base, a, [unknown]);
    OverlayJoin(schema, base, a + [unknown], b);
    OverlayJoin(schema, base, a, b);
    DecodeRendered(schema, a + [unknown] + b);
    DecodeRendered(schema, a + b);
  }

  /** A message takes no bytes exactly when all its fields have their defaults. */
  lemma {:induction false} DefaultsTakeNoBytes(record: Record, number: nat)
    ensures EncodeFrom(record, number) == [] <==> forall i :: 0 <= i < |record| ==> IsDefault(record[i])
  {
    if record != [] {
      DefaultsTakeNoBytes(record[1..], number + 1);
      assert forall i :: 1 <= i < |record| ==> record[i] == record[1..][i - 1];
    }
  }

  /** An empty nested message is written, an absent one is not, and the two decode apart. */
  lemma AbsentIsNotEmpty(fields: seq<Kind>, number: nat)
    requires Numbered(fields)
    ensures FieldBytes(number, Absent) == []
    ensures FieldBytes(number, M(Defaults(fields))) == Varint(Tag(number, 2)) + [0]
    ensures ReadValue(MessageKind(fields), [0]) == Some(Read(M(Defaults(fields)), []))
  {
    DefaultsTakeNoBytes(Defaults(fields), 1);
    assert forall i :: 0 <= i < |fields| ==> IsDefault(Default(fields[i]));
    assert ValueBytes(M(Defaults(fields))) == [0] + [];
  }
}
