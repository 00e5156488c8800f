/** Which tag sets which field: the decoders by name. */
module PaymentsFields {
  import opened Wrappers
  import Utf8
  import opened Wire
  import opened Protobuf
  import opened ProtobufTheorems
  import opened PaymentsMessages

  /** A buffer of one known field: everything else keeps its default. */
  lemma OneField(t: MessageType, number: nat, body: seq<Byte>, v: Value)
    requires 1 <= number <= |Fields(t)| && ReadValue(Fields(t)[number - 1], body) == Some(Read(v, []))
    ensures IsRecord(Fields(t), Defaults(Fields(t))[number - 1 := v])
    ensures Decoding(t, [Tag(number, KindWire(Fields(t)[number - 1]))] + body)
         == Some(FromRecord(t, Defaults(Fields(t))[number - 1 := v]))
  {
    var schema := Fields(t);
    var tag := Tag(number, KindWire(schema[number - 1]));
    var b, record := [tag] + body, Defaults(schema)[number - 1 := v];
    assert body + [] == body && (Varint(tag) + body) + [] == b;
    KnownTurn(schema, number, body, v, [], Defaults(schema));
    LoopUnfolds(schema, b, |b|, Defaults(schema));
    LoopUnfolds(schema, [], 0, record);
  }

  /** The length and the text, as they stand behind a tag. */
  function Sized(text: seq<Byte>): seq<Byte> {
    Varint(|text|) + text
  }

  lemma TextRead(t: MessageType, number: nat, text: seq<Byte>)
    requires 1 <= number <= |Fields(t)| && Fields(t)[number - 1].StringKind? && |text| < Two32
    ensures Decoding(t, [8 * number + 2] + Sized(text))
         == Some(FromRecord(t, Defaults(Fields(t))[number - 1 := S(Utf8.DecodeText(text))]))
  {
    BytesRoundTrip(text, []);
    assert Delimited(text) + [] == Sized(text);
    OneField(t, number, Sized(text), S(Utf8.DecodeText(text)));
  }

  /** Money: tag 10 is the amount, tag 18 the currency. */
  lemma MoneyByName(text: seq<Byte>)
    requires |text| < Two32
    ensures Decoding(MoneyType, [10] + Sized(text)) == Some(MoneyMessage(Money(Utf8.DecodeText(text), [])))
    ensures Decoding(MoneyType, [18] + Sized(text)) == Some(MoneyMessage(Money([], Utf8.DecodeText(text))))
  {
    TextRead(MoneyType, 1, text);
    TextRead(MoneyType, 2, text);
  }

  /** AuthorizeRequest: 10 the order, 18 the user, 26 the total, 34 the idempotency key. */
  lemma AuthorizeRequestByName(text: seq<Byte>, total: Money)
    requires |text| < Two32 && PlainMoney(Some(total)) && |Layout(MoneyMessage(total))| < Two32
    ensures var s := Utf8.DecodeText(text);
      && Decoding(AuthorizeRequestType, [10] + Sized(text)) == Some(AuthorizeRequest(s, [], None, []))
      && Decoding(AuthorizeRequestType, [18] + Sized(text)) == Some(AuthorizeRequest([], s, None, []))
      && Decoding(AuthorizeRequestType, [26] + Sized(Layout(MoneyMessage(total)))) == Some(AuthorizeRequest([], [], Some(total), []))
      && Decoding(AuthorizeRequestType, [34] + Sized(text)) == Some(AuthorizeRequest([], [], None, s))
  {
    TextRead(AuthorizeRequestType, 1, text);
    TextRead(AuthorizeRequestType, 2, text);
    MoneyRead(AuthorizeRequestType, 3, total);
    TextRead(AuthorizeRequestType, 4, text);
  }

  lemma MoneyRead(t: MessageType, number: nat, total: Money)
    requires 1 <= number <= |Fields(t)| && Fields(t)[number - 1] == MessageKind(MoneyFields)
    requires PlainMoney(Some(total)) && |Layout(MoneyMessage(total))| < Two32
    ensures Fits(MessageKind(MoneyFields), MoneyValue(Some(total)))
    ensures Decoding(t, [8 * number + 2] + Sized(Layout(MoneyMessage(total))))
         == Some(FromRecord(t, Defaults(Fields(t))[number - 1 := MoneyValue(Some(total))]))
  {
    var inner := ToRecord(MoneyMessage(total));
    EncodedInFull(MoneyMessage(total));
    NestedConsumesItsPrefix(MoneyFields, inner, []);
    PlainTextsSound(MoneyMessage(total));
    RepairKeepsAll(inner);
    assert Delimited(Layout(MoneyMessage(total))) + [] == Sized(Layout(MoneyMessage(total)));
    OneField(t, number, Sized(Layout(MoneyMessage(total))), M(inner));
  }

  /** AuthorizeResponse: 10 the payment, 16 the status, 26 the message. */
  lemma AuthorizeResponseByName(text: seq<Byte>, status: Int32)
    requires |text| < Two32
    ensures var s := Utf8.DecodeText(text);
      && Decoding(AuthorizeResponseType, [10] + Sized(text)) == Some(AuthorizeResponse(s, 0, []))
      && Decoding(AuthorizeResponseType, [16] + Int32Bytes(status)) == Some(AuthorizeResponse([], status, []))
      && Decoding(AuthorizeResponseType, [26] + Sized(text)) == Some(AuthorizeResponse([], 0, s))
  {
    TextRead(AuthorizeResponseType, 1, text);
    StatusRead(AuthorizeResponseType, status);
    TextRead(AuthorizeResponseType, 3, text);
  }

  lemma StatusRead(t: MessageType, status: Int32)
    requires t.AuthorizeResponseType? || t.GetPaymentStatusResponseType?
    ensures Decoding(t, [16] + Int32Bytes(status)) == Some(FromRecord(t, Defaults(Fields(t))[1 := I(status)]))
  {
    Int32RoundTrip(status, []);
    assert Int32Bytes(status) + [] == Int32Bytes(status);
    OneField(t, 2, Int32Bytes(status), I(status));
  }

  /** GetPaymentStatusResponse: 10 the payment, 16 the status, 26 the order. */
  lemma StatusResponseByName(text: seq<Byte>, status: Int32)
    requires |text| < Two32
    ensures var s := Utf8.DecodeText(text);
      && Decoding(GetPaymentStatusResponseType, [10] + Sized(text)) == Some(GetPaymentStatusResponse(s, 0, []))
      && Decoding(GetPaymentStatusResponseType, [16] + Int32Bytes(status)) == Some(GetPaymentStatusResponse([], status, []))
      && Decoding(GetPaymentStatusResponseType, [26] + Sized(text)) == Some(GetPaymentStatusResponse([], 0, s))
  {
    TextRead(GetPaymentStatusResponseType, 1, text);
    StatusRead(GetPaymentStatusResponseType, status);
    TextRead(GetPaymentStatusResponseType, 3, text);
  }

  /** The requests about a payment: 10 the payment, and for a refund 18 the amount. */
  lemma PaymentRequestsByName(text: seq<Byte>, amount: Money)
    requires |text| < Two32 && PlainMoney(Some(amount)) && |Layout(MoneyMessage(amount))| < Two32
    ensures var s := Utf8.DecodeText(text);
      && Decoding(GetPaymentStatusRequestType, [10] + Sized(text)) == Some(GetPaymentStatusRequest(s))
      && Decoding(CaptureRequestType, [10] + Sized(text)) == Some(CaptureRequest(s))
      && Decoding(RefundRequestType, [10] + Sized(text)) == Some(RefundRequest(s, None))
      && Decoding(RefundRequestType, [18] + Sized(Layout(MoneyMessage(amount)))) == Some(RefundRequest([], Some(amount)))
  {
    TextRead(GetPaymentStatusRequestType, 1, text);
    TextRead(CaptureRequestType, 1, text);
    TextRead(RefundRequestType, 1, text);
    MoneyRead(RefundRequestType, 2, amount);
  }

  /** OperationResponse: 8 says whether it went well, 18 is the message. */
  lemma OperationResponseByName(text: seq<Byte>, ok: bool)
    requires |text| < Two32
    ensures Decoding(OperationResponseType, [8] + [if ok then 1 else 0]) == Some(OperationResponse(ok, []))
    ensures Decoding(OperationResponseType, [18] + Sized(text)) == Some(OperationResponse(false, Utf8.DecodeText(text)))
  {
    BoolRoundTrip(ok, []);
    assert BoolBytes(ok) + [] == [if ok then 1 else 0];
    OneField(OperationResponseType, 1, [if ok then 1 else 0], B(ok));
    TextRead(OperationResponseType, 2, text);
  }

  /** All fields together: the layout of a message with plain strings is read back field by field. */
  lemma LayoutDecodes(m: Message)
    requires PlainTexts(m) && |Layout(m)| < Two32
    ensures Decoding(TypeOf(m), Layout(m)) == Some(m)
  {
    EncodedInFull(m);
    MessageRoundTrip(m);
  }
}
