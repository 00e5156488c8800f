/** The cursor text: JSON in UTF-8 in base64. */
module CursorCodec {
  import opened Wrappers
  import Utf8
  import Base64
  import Json

  type Text = Json.Text

  datatype CursorPayload = CursorPayload(id: Text, createdAt: Text)

  datatype CodecError = InvalidCursor

  /** `id` and `createdAt`, unit by unit. */
  const IdKey: Text := [105, 100]
  const CreatedAtKey: Text := [99, 114, 101, 97, 116, 101, 100, 65, 116]

  function EncodeCursor(id: Text, createdAt: Text): Text {
    Base64.Encode(Utf8.Encode(Json.Stringify([Json.Field(IdKey, id), Json.Field(CreatedAtKey, createdAt)])))
  }

  /** Anything but an object with two strings of those names is an invalid cursor. */
  function DecodeCursor(cursor: Text): Result<CursorPayload, CodecError> {
    var payload := Json.Parse(Utf8.Decode(Base64.Decode(cursor)));
    if payload.None? || !payload.value.Object? then Err(InvalidCursor) else
    var id := Json.Lookup(payload.value.members, IdKey);
    var createdAt := Json.Lookup(payload.value.members, CreatedAtKey);
    if id.None? || !id.value.String? || createdAt.None? || !createdAt.value.String? then Err(InvalidCursor)
    else Ok(CursorPayload(id.value.s, createdAt.value.s))
  }

  /** The cursor's text is an object with these two strings. */
  ghost predicate Holds(cursor: Text, p: CursorPayload) {
    && Json.Parse(Utf8.Decode(Base64.Decode(cursor))).Some?
    && var payload := Json.Parse(Utf8.Decode(Base64.Decode(cursor))).value;
      && payload.Object?
      && Json.Lookup(payload.members, IdKey) == Some(Json.String(p.id))
      && Json.Lookup(payload.members, CreatedAtKey) == Some(Json.String(p.createdAt))
  }

  /** A cursor is read exactly when its text holds a payload, as that payload. */
  lemma DecodeInFull(cursor: Text, p: CursorPayload)
    ensures DecodeCursor(cursor) == Ok(p) <==> Holds(cursor, p)
    ensures DecodeCursor(cursor) == Err(InvalidCursor) <==> !exists q :: Holds(cursor, q)
  {
    if DecodeCursor(cursor).Ok? {
      assert Holds(cursor, DecodeCursor(cursor).value);
    }
  }

  lemma TwoFields(id: Text, createdAt: Text)
    ensures var members := Json.Members([Json.Field(IdKey, id), Json.Field(CreatedAtKey, createdAt)]);
      && Json.Lookup(members, IdKey) == Some(Json.String(id))
      && Json.Lookup(members, CreatedAtKey) == Some(Json.String(createdAt))
  {
    var first, second := Json.Field(IdKey, id), Json.Field(CreatedAtKey, createdAt);
    assert [first, second][1..] == [second] && [second][1..] == [];
    assert Json.Members([]) == [];
    assert Json.Members([second]) == [Json.Member(CreatedAtKey, Json.String(createdAt))];
    var members := Json.Members([first, second]);
    assert members[..1] == [Json.Member(IdKey, Json.String(id))];
    assert IdKey != CreatedAtKey by {
      assert |IdKey| == 2 && |CreatedAtKey| == 9;
    }
  }

  /** What goes into a cursor comes out of it: any two strings, quotes, controls and half pairs included. */
  lemma CursorRoundTrip(id: Text, createdAt: Text)
    ensures DecodeCursor(EncodeCursor(id, createdAt)) == Ok(CursorPayload(id, createdAt))
  {
    var fields := [Json.Field(IdKey, id), Json.Field(CreatedAtKey, createdAt)];
    var text := Json.Stringify(fields);
    Base64.RoundTrip(Utf8.Encode(text));
    Json.StringifyWellFormed(fields);
    Utf8.RoundTrip(text);
    Json.RoundTrip(fields);
    TwoFields(id, createdAt);
  }

  /** The text in full: an object with the keys `id` and `createdAt`, in this order, in UTF-8, in base64. */
  lemma CursorInFull(id: Text, createdAt: Text)
    ensures EncodeCursor(id, createdAt)
         == Base64.Encode(Utf8.Encode(Json.Ascii("{\"id\":\"") + Json.Escape(id) + Json.Ascii("\",\"createdAt\":\"")
                                      + Json.Escape(createdAt) + Json.Ascii("\"}")))
  {
    var first, second := Json.Field(IdKey, id), Json.Field(CreatedAtKey, createdAt);
    assert IdKey == Json.Ascii("id") && CreatedAtKey == Json.Ascii("createdAt");
    Json.PlainStays(IdKey);
    Json.PlainStays(CreatedAtKey);
    Json.TwoFieldsText(first, second);
    TextParts(Json.Escape(id), Json.Escape(createdAt));
  }

  lemma Weave(a: Text, q: Text, id: Text, comma: Text, b: Text, createdAt: Text, end: Text)
    ensures (a + (q + id + q)) + (comma + ((b + (q + createdAt + q)) + end))
         == (a + q) + id + (q + comma + b + q) + createdAt + (q + end)
  {}

  lemma TextParts(id: Text, createdAt: Text)
    ensures var q: Text := [Json.Quote];
      [0x7B] + ((q + IdKey + q + [0x3A] + (q + id + q))
                + ([0x2C] + ((q + CreatedAtKey + q + [0x3A] + (q + createdAt + q)) + [0x7D])))
      == Json.Ascii("{\"id\":\"") + id + Json.Ascii("\",\"createdAt\":\"") + createdAt + Json.Ascii("\"}")
  {
    var q: Text := [Json.Quote];
    var a, b := q + IdKey + q + [0x3A], q + CreatedAtKey + q + [0x3A];
    Weave([0x7B] + a, q, id, [0x2C], b, createdAt, [0x7D]);
    var tail := [0x2C] + ((b + (q + createdAt + q)) + [0x7D]);
    assert [0x7B] + ((a + (q + id + q)) + tail) == (([0x7B] + a) + (q + id + q)) + tail;
    KeyParts();
  }

  lemma KeyParts()
    ensures var q: Text := [Json.Quote];
      && [0x7B] + (q + IdKey + q + [0x3A]) + q == Json.Ascii("{\"id\":\"")
      && q + [0x2C] + (q + CreatedAtKey + q + [0x3A]) + q == Json.Ascii("\",\"createdAt\":\"")
      && q + [0x7D] == Json.Ascii("\"}")
  {}

  /** So two different positions never share a cursor. */
  lemma CursorsDiffer(a: CursorPayload, b: CursorPayload)
    requires EncodeCursor(a.id, a.createdAt) == EncodeCursor(b.id, b.createdAt)
    ensures a == b
  {
    CursorRoundTrip(a.id, a.createdAt);
    CursorRoundTrip(b.id, b.createdAt);
  }

  /** Nor is one empty, which would read as no cursor at all. */
  lemma CursorNotEmpty(id: Text, createdAt: Text)
    ensures EncodeCursor(id, createdAt) != []
  {
    CursorRoundTrip(id, createdAt);
    assert DecodeCursor([]).Err?;
  }
}
