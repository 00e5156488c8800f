/** The eight messages of payments.v1: their encoders, the decoders' loop, and the round trip. */
module PaymentsMessages {
  import opened Wrappers
  import Utf8
  import opened Wire
  import opened Protobuf
  import opened ProtobufTheorems

  datatype Money = Money(amount: Text, currency: Text)

  /** A status is a number of the PaymentStatus enum, or one it does not know, kept as it came. */
  datatype Message =
    | MoneyMessage(money: Money)
    | AuthorizeRequest(orderId: Text, userId: Text, total: Option<Money>, idempotencyKey: Text)
    | AuthorizeResponse(paymentId: Text, status: Int32, message: Text)
    | GetPaymentStatusRequest(paymentId: Text)
    | GetPaymentStatusResponse(paymentId: Text, status: Int32, orderId: Text)
    | CaptureRequest(paymentId: Text)
    | RefundRequest(paymentId: Text, amount: Option<Money>)
    | OperationResponse(ok: bool, message: Text)

  datatype MessageType =
    | MoneyType | AuthorizeRequestType | AuthorizeResponseType | GetPaymentStatusRequestType
    | GetPaymentStatusResponseType | CaptureRequestType | RefundRequestType | OperationResponseType

  function TypeOf(m: Message): MessageType {
    match m
    case MoneyMessage(_) => MoneyType
    case AuthorizeRequest(_, _, _, _) => AuthorizeRequestType
    case AuthorizeResponse(_, _, _) => AuthorizeResponseType
    case GetPaymentStatusRequest(_) => GetPaymentStatusRequestType
    case GetPaymentStatusResponse(_, _, _) => GetPaymentStatusResponseType
    case CaptureRequest(_) => CaptureRequestType
    case RefundRequest(_, _) => RefundRequestType
    case OperationResponse(_, _) => OperationResponseType
  }

  const MoneyFields: seq<Kind> := [StringKind, StringKind]

  /** The kinds of a message's fields, in the order of their numbers. */
  function Fields(t: MessageType): (schema: seq<Kind>)
    ensures Numbered(schema)
  {
    assert Numbered(MoneyFields);
    match t
    case MoneyType => MoneyFields
    case AuthorizeRequestType => [StringKind, StringKind, MessageKind(MoneyFields), StringKind]
    case AuthorizeResponseType => [StringKind, Int32Kind, StringKind]
    case GetPaymentStatusRequestType => [StringKind]
    case GetPaymentStatusResponseType => [StringKind, Int32Kind, StringKind]
    case CaptureRequestType => [StringKind]
    case RefundRequestType => [StringKind, MessageKind(MoneyFields)]
    case OperationResponseType => [BoolKind, StringKind]
  }

  function MoneyValue(m: Option<Money>): Value {
    if m.None? then Absent else M([S(m.value.amount), S(m.value.currency)])
  }

  function ToRecord(m: Message): (record: Record)
    ensures IsRecord(Fields(TypeOf(m)), record)
  {
    match m
    case MoneyMessage(money) => [S(money.amount), S(money.currency)]
    case AuthorizeRequest(orderId, userId, total, key) => [S(orderId), S(userId), MoneyValue(total), S(key)]
    case AuthorizeResponse(paymentId, status, message) => [S(paymentId), I(status), S(message)]
    case GetPaymentStatusRequest(paymentId) => [S(paymentId)]
    case GetPaymentStatusResponse(paymentId, status, orderId) => [S(paymentId), I(status), S(orderId)]
    case CaptureRequest(paymentId) => [S(paymentId)]
    case RefundRequest(paymentId, amount) => [S(paymentId), MoneyValue(amount)]
    case OperationResponse(ok, message) => [B(ok), S(message)]
  }

  function MoneyFrom(v: Value): Option<Money>
    requires Fits(MessageKind(MoneyFields), v)
  {
    if v.Absent? then None else
    assert Fits(MoneyFields[0], v.m[0]) && Fits(MoneyFields[1], v.m[1]);
    Some(Money(v.m[0].s, v.m[1].s))
  }

  function FromRecord(t: MessageType, r: Record): Message
    requires IsRecord(Fields(t), r)
  {
    assert forall i :: 0 <= i < |r| ==> Fits(Fields(t)[i], r[i]);
    match t
    case MoneyType => MoneyMessage(Money(r[0].s, r[1].s))
    case AuthorizeRequestType => AuthorizeRequest(r[0].s, r[1].s, MoneyFrom(r[2]), r[3].s)
    case AuthorizeResponseType => AuthorizeResponse(r[0].s, r[1].i, r[2].s)
    case GetPaymentStatusRequestType => GetPaymentStatusRequest(r[0].s)
    case GetPaymentStatusResponseType => GetPaymentStatusResponse(r[0].s, r[1].i, r[2].s)
    case CaptureRequestType => CaptureRequest(r[0].s)
    case RefundRequestType => RefundRequest(r[0].s, MoneyFrom(r[1]))
    case OperationResponseType => OperationResponse(r[0].b, r[1].s)
  }

  // ---- the writer and the encoders ------------------------------------------------------------

  class BinaryWriter {
    var buf: seq<Byte>
    var stack: seq<seq<Byte>>

    constructor ()
      ensures buf == [] && stack == []
    {
      buf, stack := [], [];
    }

    method UInt32(n: nat)
      modifies this
      ensures buf == old(buf) + Varint(n) && stack == old(stack)
    {
      buf := buf + Varint(n);
    }

    method String(s: Text)
      modifies this
      ensures buf == old(buf) + Delimited(Utf8.Encode(s)) && stack == old(stack)
    {
      var bytes := Utf8.Encode(s);
      UInt32(|bytes|);
      buf := buf + bytes;
    }

    method Int32(i: Int32)
      modifies this
      ensures buf == old(buf) + Int32Bytes(i) && stack == old(stack)
    {
      buf := buf + Int32Bytes(i);
    }

    method Bool(b: bool)
      modifies this
      ensures buf == old(buf) + BoolBytes(b) && stack == old(stack)
    {
      buf := buf + BoolBytes(b);
    }

    /** What is written from here on is set apart until the matching Join. */
    method Fork()
      modifies this
      ensures buf == [] && stack == old(stack) + [old(buf)]
    {
      buf, stack := [], stack + [buf];
    }

    /** The bytes since the matching Fork go behind what was there before, their length first. */
    method Join()
      requires stack != []
      modifies this
      ensures buf == old(stack)[|old(stack)| - 1] + Delimited(old(buf))
      ensures stack == old(stack)[..|old(stack)| - 1]
    {
      var chunk := buf;
      buf, stack := stack[|stack| - 1], stack[..|stack| - 1];
      UInt32(|chunk|);
      buf := buf + chunk;
    }

    method StringField(tag: nat, s: Text)
      requires tag % 8 == 2
      modifies this
      ensures buf == old(buf) + FieldBytes(tag / 8, S(s)) && stack == old(stack)
    {
      if s != [] {
        UInt32(tag);
        String(s);
        Regroup(old(buf), Varint(tag), Delimited(Utf8.Encode(s)));
      }
    }

    method Int32Field(tag: nat, i: Int32)
      requires tag % 8 == 0
      modifies this
      ensures buf == old(buf) + FieldBytes(tag / 8, I(i)) && stack == old(stack)
    {
      if i != 0 {
        UInt32(tag);
        Int32(i);
        Regroup(old(buf), Varint(tag), Int32Bytes(i));
      }
    }

    method BoolField(tag: nat, b: bool)
      requires tag % 8 == 0
      modifies this
      ensures buf == old(buf) + FieldBytes(tag / 8, B(b)) && stack == old(stack)
    {
      if b {
        UInt32(tag);
        Bool(b);
        Regroup(old(buf), Varint(tag), BoolBytes(b));
      }
    }

    method MoneyField(tag: nat, m: Option<Money>)
      requires tag % 8 == 2
      modifies this
      ensures buf == old(buf) + FieldBytes(tag / 8, MoneyValue(m)) && stack == old(stack)
    {
      if m.Some? {
        UInt32(tag);
        Fork();
        EncodeMoney(m.value);
        Join();
        Regroup(old(buf), Varint(tag), ValueBytes(MoneyValue(m)));
      }
    }

    method EncodeMoney(m: Money)
      modifies this
      ensures buf == old(buf) + Encode(ToRecord(MoneyMessage(m))) && stack == old(stack)
    {
      EncodeTwo(1, S(m.amount), S(m.currency));
      StringField(10, m.amount);
      StringField(18, m.currency);
      Regroup(old(buf), FieldBytes(1, S(m.amount)), FieldBytes(2, S(m.currency)));
    }

    method EncodeAuthorizeRequest(m: Message)
      requires m.AuthorizeRequest?
      modifies this
      ensures buf == old(buf) + Encode(ToRecord(m)) && stack == old(stack)
    {
      StringField(10, m.orderId);
      StringField(18, m.userId);
      ghost var half := buf;
      MoneyField(26, m.total);
      StringField(34, m.idempotencyKey);
      assert buf == half + FieldBytes(3, MoneyValue(m.total)) + FieldBytes(4, S(m.idempotencyKey));
      AuthorizeRequestBytes(old(buf), m, half);
    }

    method EncodeAuthorizeResponse(m: Message)
      requires m.AuthorizeResponse?
      modifies this
      ensures buf == old(buf) + Encode(ToRecord(m)) && stack == old(stack)
    {
      EncodeThree(1, S(m.paymentId), I(m.status), S(m.message));
      StringField(10, m.paymentId);
      Int32Field(16, m.status);
      StringField(26, m.message);
      RegroupThree(old(buf), FieldBytes(1, S(m.paymentId)), FieldBytes(2, I(m.status)),
                   FieldBytes(3, S(m.message)));
    }

    method EncodeGetPaymentStatusResponse(m: Message)
      requires m.GetPaymentStatusResponse?
      modifies this
      ensures buf == old(buf) + Encode(ToRecord(m)) && stack == old(stack)
    {
      EncodeThree(1, S(m.paymentId), I(m.status), S(m.orderId));
      StringField(10, m.paymentId);
      Int32Field(16, m.status);
      StringField(26, m.orderId);
      RegroupThree(old(buf), FieldBytes(1, S(m.paymentId)), FieldBytes(2, I(m.status)),
                   FieldBytes(3, S(m.orderId)));
    }

    /** GetPaymentStatusRequest and CaptureRequest: a payment id and nothing else. */
    method EncodePaymentId(paymentId: Text)
      modifies this
      ensures buf == old(buf) + Encode([S(paymentId)]) && stack == old(stack)
    {
      EncodeOne(1, S(paymentId));
      StringField(10, paymentId);
    }

    method EncodeRefundRequest(m: Message)
      requires m.RefundRequest?
      modifies this
      ensures buf == old(buf) + Encode(ToRecord(m)) && stack == old(stack)
    {
      EncodeTwo(1, S(m.paymentId), MoneyValue(m.amount));
      StringField(10, m.paymentId);
      MoneyField(18, m.amount);
      Regroup(old(buf), FieldBytes(1, S(m.paymentId)), FieldBytes(2, MoneyValue(m.amount)));
    }

    method EncodeOperationResponse(m: Message)
      requires m.OperationResponse?
      modifies this
      ensures buf == old(buf) + Encode(ToRecord(m)) && stack == old(stack)
    {
      EncodeTwo(1, B(m.ok), S(m.message));
      BoolField(8, m.ok);
      StringField(18, m.message);
      Regroup(old(buf), FieldBytes(1, B(m.ok)), FieldBytes(2, S(m.message)));
    }

    method EncodeMessage(m: Message)
      modifies this
      ensures buf == old(buf) + Encode(ToRecord(m)) && stack == old(stack)
      ensures buf == old(buf) + Layout(m)
    {
      EncodedInFull(m);
      match m {
        case MoneyMessage(money) => EncodeMoney(money);
        case AuthorizeRequest(_, _, _, _) => EncodeAuthorizeRequest(m);
        case AuthorizeResponse(_, _, _) => EncodeAuthorizeResponse(m);
        case GetPaymentStatusRequest(paymentId) => EncodePaymentId(paymentId);
        case GetPaymentStatusResponse(_, _, _) => EncodeGetPaymentStatusResponse(m);
        case CaptureRequest(paymentId) => EncodePaymentId(paymentId);
        case RefundRequest(_, _) => EncodeRefundRequest(m);
        case OperationResponse(_, _) => EncodeOperationResponse(m);
      }
    }
  }

  lemma AuthorizeRequestBytes(o: seq<Byte>, m: Message, half: seq<Byte>)
    requires m.AuthorizeRequest? && half == o + FieldBytes(1, S(m.orderId)) + FieldBytes(2, S(m.userId))
    ensures half + FieldBytes(3, MoneyValue(m.total)) + FieldBytes(4, S(m.idempotencyKey)) == o + Encode(ToRecord(m))
  {
    EncodeFour(1, S(m.orderId), S(m.userId), MoneyValue(m.total), S(m.idempotencyKey));
    RegroupFour(o, FieldBytes(1, S(m.orderId)), FieldBytes(2, S(m.userId)),
                FieldBytes(3, MoneyValue(m.total)), FieldBytes(4, S(m.idempotencyKey)));
  }

  lemma RegroupThree(o: seq<Byte>, a: seq<Byte>, b: seq<Byte>, c: seq<Byte>)
    ensures o + a + b + c == o + (a + (b + c))
  {}

  lemma RegroupFour(o: seq<Byte>, a: seq<Byte>, b: seq<Byte>, c: seq<Byte>, d: seq<Byte>)
    ensures o + a + b + c + d == o + (a + (b + (c + d)))
  {}

  lemma EncodeOne(number: nat, a: Value)
    ensures EncodeFrom([a], number) == FieldBytes(number, a)
  {
    assert EncodeFrom([a][1..], number + 1) == [];
  }

  lemma EncodeHead(number: nat, a: Value, rest: Record)
    ensures EncodeFrom([a] + rest, number) == FieldBytes(number, a) + EncodeFrom(rest, number + 1)
  {
    assert ([a] + rest)[1..] == rest;
  }

  lemma EncodeTwo(number: nat, a: Value, b: Value)
    ensures EncodeFrom([a, b], number) == FieldBytes(number, a) + FieldBytes(number + 1, b)
  {
    EncodeHead(number, a, [b]);
    EncodeOne(number + 1, b);
    assert [a] + [b] == [a, b];
  }

  lemma EncodeThree(number: nat, a: Value, b: Value, c: Value)
    ensures EncodeFrom([a, b, c], number)
         == FieldBytes(number, a) + (FieldBytes(number + 1, b) + FieldBytes(number + 2, c))
  {
    EncodeHead(number, a, [b, c]);
    EncodeTwo(number + 1, b, c);
    assert [a] + [b, c] == [a, b, c];
  }

  lemma EncodeFour(number: nat, a: Value, b: Value, c: Value, d: Value)
    ensures EncodeFrom([a, b, c, d], number)
         == FieldBytes(number, a)
            + (FieldBytes(number + 1, b) + (FieldBytes(number + 2, c) + FieldBytes(number + 3, d)))
  {
    EncodeHead(number, a, [b, c, d]);
    EncodeThree(number + 1, b, c, d);
    assert [a] + [b, c, d] == [a, b, c, d];
  }

  // ---- the bytes by name ----------------------------------------------------------------------

  /** The tag, the length and the text; nothing for an empty string. */
  function StringPart(tag: Byte, s: Text): seq<Byte> {
    var text := Utf8.Encode(s);
    if s == [] then [] else [tag] + Varint(|text|) + text
  }

  function Int32Part(tag: Byte, i: Int32): seq<Byte> {
    if i == 0 then [] else [tag] + Int32Bytes(i)
  }

  function BoolPart(tag: Byte, b: bool): seq<Byte> {
    if b then [tag, 1] else []
  }

  function MoneyPart(tag: Byte, m: Option<Money>): seq<Byte> {
    if m.None? then [] else
    var body := StringPart(10, m.value.amount) + StringPart(18, m.value.currency);
    [tag] + Varint(|body|) + body
  }

  lemma ScalarIsPart(number: nat, i: Int32, b: bool)
    requires 1 <= number <= 4
    ensures FieldBytes(number, I(i)) == Int32Part(8 * number, i)
    ensures FieldBytes(number, B(b)) == BoolPart(8 * number, b)
  {}

  lemma StringIsPart(number: nat, s: Text)
    requires 1 <= number <= 4
    ensures FieldBytes(number, S(s)) == StringPart(8 * number + 2, s)
  {
    var text := Utf8.Encode(s);
    Regroup([8 * number + 2], Varint(|text|), text);
  }

  lemma MoneyIsPart(number: nat, m: Option<Money>)
    requires 1 <= number <= 4
    ensures FieldBytes(number, MoneyValue(m)) == MoneyPart(8 * number + 2, m)
  {
    if m.Some? {
      MoneyBody(m.value);
      var body := StringPart(10, m.value.amount) + StringPart(18, m.value.currency);
      Regroup([8 * number + 2], Varint(|body|), body);
    }
  }

  lemma MoneyBody(m: Money)
    ensures EncodeFrom([S(m.amount), S(m.currency)], 1) == StringPart(10, m.amount) + StringPart(18, m.currency)
  {
    var amount, currency := Utf8.Encode(m.amount), Utf8.Encode(m.currency);
    EncodeTwo(1, S(m.amount), S(m.currency));
    Regroup([10], Varint(|amount|), amount);
    Regroup([18], Varint(|currency|), currency);
  }

  /** Each type's fields by name, each behind its own tag, in this order. */
  function Layout(m: Message): seq<Byte> {
    match m
    case MoneyMessage(money) => StringPart(10, money.amount) + StringPart(18, money.currency)
    case AuthorizeRequest(orderId, userId, total, idempotencyKey) =>
      StringPart(10, orderId) + (StringPart(18, userId) + (MoneyPart(26, total) + StringPart(34, idempotencyKey)))
    case AuthorizeResponse(paymentId, status, message) =>
      StringPart(10, paymentId) + (Int32Part(16, status) + StringPart(26, message))
    case GetPaymentStatusRequest(paymentId) => StringPart(10, paymentId)
    case GetPaymentStatusResponse(paymentId, status, orderId) =>
      StringPart(10, paymentId) + (Int32Part(16, status) + StringPart(26, orderId))
    case CaptureRequest(paymentId) => StringPart(10, paymentId)
    case RefundRequest(paymentId, amount) => StringPart(10, paymentId) + MoneyPart(18, amount)
    case OperationResponse(ok, message) => BoolPart(8, ok) + StringPart(18, message)
  }

  lemma AuthorizeInFull(orderId: Text, userId: Text, total: Option<Money>, key: Text)
    ensures Encode([S(orderId), S(userId), MoneyValue(total), S(key)])
         == StringPart(10, orderId) + (StringPart(18, userId) + (MoneyPart(26, total) + StringPart(34, key)))
  {
    StringIsPart(1, orderId);
    StringIsPart(2, userId);
    MoneyIsPart(3, total);
    StringIsPart(4, key);
    EncodeFour(1, S(orderId), S(userId), MoneyValue(total), S(key));
  }

  lemma StatusInFull(paymentId: Text, status: Int32, last: Text)
    ensures Encode([S(paymentId), I(status), S(last)])
         == StringPart(10, paymentId) + (Int32Part(16, status) + StringPart(26, last))
  {
    StringIsPart(1, paymentId);
    ScalarIsPart(2, status, false);
    StringIsPart(3, last);
    EncodeThree(1, S(paymentId), I(status), S(last));
  }

  lemma RefundRequestInFull(m: Message)
    requires m.RefundRequest?
    ensures Encode(ToRecord(m)) == Layout(m)
  {
    StringIsPart(1, m.paymentId);
    MoneyIsPart(2, m.amount);
    EncodeTwo(1, S(m.paymentId), MoneyValue(m.amount));
  }

  lemma OperationResponseInFull(m: Message)
    requires m.OperationResponse?
    ensures Encode(ToRecord(m)) == Layout(m)
  {
    ScalarIsPart(1, 0, m.ok);
    StringIsPart(2, m.message);
    EncodeTwo(1, B(m.ok), S(m.message));
  }

  lemma PaymentIdInFull(paymentId: Text)
    ensures Encode([S(paymentId)]) == StringPart(10, paymentId)
  {
    StringIsPart(1, paymentId);
    EncodeOne(1, S(paymentId));
  }

  /** That is what is written for all eight. */
  lemma EncodedInFull(m: Message)
    ensures Encode(ToRecord(m)) == Layout(m)
  {
    if m.MoneyMessage? {
      MoneyBody(m.money);
    } else if m.AuthorizeRequest? {
      AuthorizeInFull(m.orderId, m.userId, m.total, m.idempotencyKey);
    } else if m.AuthorizeResponse? {
      StatusInFull(m.paymentId, m.status, m.message);
    } else if m.GetPaymentStatusResponse? {
      StatusInFull(m.paymentId, m.status, m.orderId);
    } else if m.RefundRequest? {
      RefundRequestInFull(m);
    } else if m.OperationResponse? {
      OperationResponseInFull(m);
    } else {
      PaymentIdInFull(m.paymentId);
    }
  }

  // ---- the reader and the decoders' loop ------------------------------------------------------

  lemma LoopUnfolds(schema: seq<Kind>, b: seq<Byte>, left: int, record: Record)
    requires IsRecord(schema, record)
    ensures left <= 0 ==> DecodeFrom(schema, b, left, record) == Some(Read(record, b))
    ensures left > 0 ==>
      DecodeFrom(schema, b, left, record)
      == match TakeField(schema, b, record)
         case Thrown => None
         case Stopped(rest) => Some(Read(record, rest))
         case Taken(record', rest) => DecodeFrom(schema, rest, left - (|b| - |rest|), record')
  {}

  lemma LoopEnds(schema: seq<Kind>, b: seq<Byte>, left: int, record: Record)
    requires IsRecord(schema, record) && left <= 0
    ensures DecodeFrom(schema, b, left, record) == Some(Read(record, b))
  {}

  datatype LoopNext = Throws | Breaks | Continues

  class BinaryReader {
    const buf: seq<Byte>
    var pos: nat

    constructor (buf: seq<Byte>)
      ensures this.buf == buf && pos == 0
    {
      this.buf := buf;
      pos := 0;
    }

    ghost predicate Valid()
      reads this
    {
      pos <= |buf|
    }

    function Rest(): seq<Byte>
      reads this
      requires pos <= |buf|
    {
      buf[pos..]
    }

    /** After a read, the reader stands at the bytes the read left. */
    method MoveTo(rest: seq<Byte>)
      requires Valid() && IsSuffix(rest, Rest())
      modifies this
      ensures Valid() && Rest() == rest
    {
      pos := |buf| - |rest|;
    }

    /** One turn of the loop all eight decoders share, with the message's own tags as its table. */
    method Turn(schema: seq<Kind>, message: Record) returns (next: LoopNext, message': Record)
      requires Valid() && IsRecord(schema, message)
      modifies this
      ensures var turn := TakeField(schema, old(Rest()), message);
        && (next.Throws? <==> turn.Thrown?)
        && (next.Breaks? <==> turn.Stopped?)
        && (next.Breaks? ==> Valid() && Rest() == turn.rest && message' == message)
        && (next.Continues? ==> Valid() && turn == Taken(message', Rest()))
      decreases schema, 0
    {
      ReadLeavesSuffix(Rest());
      var tag := ReadUint32(Rest());
      if tag.None? {
        return Throws, message;
      }
      MoveTo(tag.value.rest);
      var t := tag.value.value;
      if Knows(schema, t) {
        var v := ReadField(schema[t / 8 - 1]);
        if v.None? {
          return Throws, message;
        }
        return Continues, message[t / 8 - 1 := v.value];
      }
      if t % 8 == 4 || t == 0 {
        return Breaks, message;
      }
      var rest := Skip(t % 8, None, Rest());
      if rest.None? {
        return Throws, message;
      }
      SkipLeavesSuffix(t % 8, None, Rest());
      MoveTo(rest.value);
      return Continues, message;
    }

    /** The loop reads `length` bytes, or all there is, unless it stops early or throws. */
    method DecodeFields(schema: seq<Kind>, length: Option<nat>) returns (result: Option<Record>)
      requires Valid()
      modifies this
      ensures var d := DecodeFrom(schema, old(Rest()), if length.Some? then length.value else |old(Rest())|,
                                  Defaults(schema));
        && (result.Some? <==> d.Some?)
        && (result.Some? ==> Valid() && IsRecord(schema, result.value) && d.value == Read(result.value, Rest()))
      decreases schema, 3
    {
      var end := if length.Some? then pos + length.value else |buf|;
      result := Loop(schema, end);
    }

    /** The same turn, seen from the loop: what is left to decode decodes to the same. */
    method TurnInLoop(schema: seq<Kind>, message: Record, ghost left: int)
      returns (next: LoopNext, message': Record)
      requires Valid() && IsRecord(schema, message) && left > 0
      modifies this
      ensures next.Throws? ==> DecodeFrom(schema, old(Rest()), left, message) == None
      ensures !next.Throws? ==> Valid() && IsRecord(schema, message') && pos > old(pos)
      ensures next.Breaks? ==> DecodeFrom(schema, old(Rest()), left, message) == Some(Read(message', Rest()))
      ensures next.Continues? ==>
        DecodeFrom(schema, old(Rest()), left, message)
        == DecodeFrom(schema, Rest(), left - (pos - old(pos)), message')
      decreases schema, 1
    {
      ghost var b := Rest();
      next, message' := Turn(schema, message);
      LoopUnfolds(schema, b, left, message);
    }

    method Loop(schema: seq<Kind>, end: nat) returns (result: Option<Record>)
      requires Valid()
      modifies this
      ensures var d := DecodeFrom(schema, old(Rest()), end - old(pos), Defaults(schema));
        && (result.Some? <==> d.Some?)
        && (result.Some? ==> Valid() && IsRecord(schema, result.value) && d.value == Read(result.value, Rest()))
      decreases schema, 2
    {
      var message := Defaults(schema);
      ghost var whole := DecodeFrom(schema, Rest(), end - pos, message);
      while pos < end
        invariant Valid() && IsRecord(schema, message)
        invariant whole == DecodeFrom(schema, Rest(), end - pos, message)
        decreases |buf| - pos
      {
        var next;
        next, message := TurnInLoop(schema, message, end - pos);
        if next.Throws? {
          return None;
        }
        if next.Breaks? {
          return Some(message);
        }
      }
      LoopEnds(schema, Rest(), end - pos, message);
      return Some(message);
    }

    /** One field's value by its kind; a nested message reads its length and runs its own loop. */
    method ReadField(kind: Kind) returns (v: Option<Value>)
      requires Valid()
      modifies this
      ensures var r := ReadValue(kind, old(Rest()));
        && (v.Some? <==> r.Some?)
        && (v.Some? ==> Valid() && r.value == Read(v.value, Rest()))
      decreases kind, 4
    {
      ReadLeavesSuffix(Rest());
      match kind {
        case StringKind =>
          var s := ReadString(Rest());
          if s.None? {
            return None;
          }
          MoveTo(s.value.rest);
          return Some(S(s.value.value));
        case Int32Kind =>
          var i := ReadInt32(Rest());
          if i.None? {
            return None;
          }
          MoveTo(i.value.rest);
          return Some(I(i.value.value));
        case BoolKind =>
          var b := ReadBool(Rest());
          if b.None? {
            return None;
          }
          MoveTo(b.value.rest);
          return Some(B(b.value.value));
        case MessageKind(fields) =>
          var length := ReadUint32(Rest());
          if length.None? {
            return None;
          }
          MoveTo(length.value.rest);
          var m := DecodeFields(fields, Some(length.value.value));
          return if m.Some? then Some(M(m.value)) else None;
      }
    }
  }

  method DecodeMessage(t: MessageType, bytes: seq<Byte>) returns (m: Option<Message>)
    ensures m == Decoding(t, bytes)
  {
    var reader := new BinaryReader(bytes);
    assert reader.Rest() == bytes;
    var record := reader.DecodeFields(Fields(t), None);
    return if record.Some? then Some(FromRecord(t, record.value)) else None;
  }

  // ---- the round trip -------------------------------------------------------------------------

  function Decoding(t: MessageType, bytes: seq<Byte>): Option<Message> {
    match DecodeFrom(Fields(t), bytes, |bytes|, Defaults(Fields(t)))
    case Some(r) => Some(FromRecord(t, r.value))
    case None => None
  }

  function Encoding(m: Message): seq<Byte> {
    Encode(ToRecord(m))
  }

  lemma RecordRoundTrip(m: Message)
    ensures FromRecord(TypeOf(m), ToRecord(m)) == m
  {}

  lemma MoneyBack(v: Value)
    requires Fits(MessageKind(MoneyFields), v)
    ensures MoneyValue(MoneyFrom(v)) == v
  {
    if v.M? {
      assert Fits(MoneyFields[0], v.m[0]) && Fits(MoneyFields[1], v.m[1]);
      assert v.m == [v.m[0], v.m[1]];
    }
  }

  lemma SameRecord(t: MessageType, r: Record)
    requires IsRecord(Fields(t), r)
    ensures TypeOf(FromRecord(t, r)) == t && ToRecord(FromRecord(t, r)) == r
  {
    var kinds := Fields(t);
    assert forall i :: 0 <= i < |r| ==> Fits(kinds[i], r[i]);
    if t.AuthorizeRequestType? {
      MoneyBack(r[2]);
      assert r == [r[0], r[1], r[2], r[3]];
    } else if t.RefundRequestType? {
      MoneyBack(r[1]);
      assert r == [r[0], r[1]];
    } else if |r| == 1 {
      assert r == [r[0]];
    } else if |r| == 2 {
      assert r == [r[0], r[1]];
    } else {
      assert r == [r[0], r[1], r[2]];
    }
  }

  /** A string without half a pair and without a byte order mark in front. */
  predicate Plain(s: Text) {
    Utf8.WellFormed(s) && !Utf8.Marked(s)
  }

  predicate PlainMoney(m: Option<Money>) {
    m.Some? ==> Plain(m.value.amount) && Plain(m.value.currency)
  }

  /** All strings of the message are plain. */
  predicate PlainTexts(m: Message) {
    match m
    case MoneyMessage(money) => PlainMoney(Some(money))
    case AuthorizeRequest(orderId, userId, total, key) => Plain(orderId) && Plain(userId) && PlainMoney(total) && Plain(key)
    case AuthorizeResponse(paymentId, _, message) => Plain(paymentId) && Plain(message)
    case GetPaymentStatusRequest(paymentId) => Plain(paymentId)
    case GetPaymentStatusResponse(paymentId, _, orderId) => Plain(paymentId) && Plain(orderId)
    case CaptureRequest(paymentId) => Plain(paymentId)
    case RefundRequest(paymentId, amount) => Plain(paymentId) && PlainMoney(amount)
    case OperationResponse(_, message) => Plain(message)
  }

  lemma SoundEach(record: Record)
    requires |record| <= 4
    ensures AllTextSound(record) <==>
      && (|record| > 0 ==> TextSound(record[0])) && (|record| > 1 ==> TextSound(record[1]))
      && (|record| > 2 ==> TextSound(record[2])) && (|record| > 3 ==> TextSound(record[3]))
  {
    if |record| > 0 {
      SoundEach(record[1..]);
    }
  }

  lemma PlainMoneySound(m: Option<Money>)
    ensures TextSound(MoneyValue(m)) <==> PlainMoney(m)
  {
    if m.Some? {
      SoundEach(MoneyValue(m).m);
    }
  }

  lemma PlainTextsSound(m: Message)
    ensures AllTextSound(ToRecord(m)) <==> PlainTexts(m)
  {
    SoundEach(ToRecord(m));
    if m.MoneyMessage? {
      PlainMoneySound(Some(m.money));
    } else if m.AuthorizeRequest? {
      PlainMoneySound(m.total);
    } else if m.RefundRequest? {
      PlainMoneySound(m.amount);
    }
  }

  /** For all eight: decoding gives the message back exactly when all its strings are plain. */
  lemma MessageRoundTrip(m: Message)
    requires |Encoding(m)| < Two32
    ensures Decoding(TypeOf(m), Encoding(m)) == Some(m) <==> PlainTexts(m)
  {
    var schema := Fields(TypeOf(m));
    RoundTrip(schema, ToRecord(m));
    RecordRoundTrip(m);
    var d := DecodeFrom(schema, Encoding(m), |Encoding(m)|, Defaults(schema));
    SameRecord(TypeOf(m), d.value.value);
    PlainTextsSound(m);
  }

  /** A payment id that begins with a byte order mark arrives without it: the request is for another id. */
  lemma MarkedIdArrivesBare(id: Text)
    requires Plain(id) && |Encoding(CaptureRequest([Utf8.Mark] + id))| < Two32
    ensures Decoding(CaptureRequestType, Encoding(CaptureRequest([Utf8.Mark] + id))) == Some(CaptureRequest(id))
  {
    var m := CaptureRequest([Utf8.Mark] + id);
    RoundTrip(Fields(CaptureRequestType), ToRecord(m));
    Utf8.MarkIsLost(id);
    Utf8.RoundTrip(id);
    assert RepairedRecord(ToRecord(m)) == [S(id)];
  }

  /**
     Nothing holds a nested message to its length once its loop has begun a field: with a length of one,
     its decoder still reads the empty amount that the next byte announces. `NestedFraming` says when it does not.
   */
  lemma NestedCanOvershoot()
    ensures ReadBytes([1, 10, 0]) == Some(Read([10], [0]))
    ensures ReadValue(MessageKind(MoneyFields), [1, 10, 0]) == Some(Read(M([S([]), S([])]), []))
  {
    var money := Defaults(MoneyFields);
    assert money == [S([]), S([])] && money[0 := S([])] == money;
    assert [1, 10, 0][1..] == [10, 0] && [10, 0][1..] == [0] && [10, 0][..1] == [10];
    assert ReadUint32([1, 10, 0]) == Some(Read(1, [10, 0]));
    assert ReadUint32([10, 0]) == Some(Read(10, [0]));
    assert ReadUint32([0]) == Some(Read(0, []));
    assert ReadString([0]) == Some(Read([], []));
    assert TakeField(MoneyFields, [10, 0], money) == Taken(money, []);
    LoopUnfolds(MoneyFields, [10, 0], 1, money);
    LoopUnfolds(MoneyFields, [], -1, money);
    assert DecodeFrom(MoneyFields, [10, 0], 1, money) == Some(Read(money, []));
  }
}
