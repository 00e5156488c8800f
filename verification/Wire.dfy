/** The protobuf wire format: varints, length-delimited bytes, and skipping what is not known. */
module Wire {
  import opened Wrappers
  import Utf8

  type Byte = Utf8.Byte

  type Text = seq<Utf8.Unit>

  /** A value that was read, and the bytes after it. */
  datatype Read<+T> = Read(value: T, rest: seq<Byte>)

  const Two31 := 0x8000_0000
  const Two32 := 0x1_0000_0000
  const Two64 := 0x1_0000_0000_0000_0000

  type Int32 = i: int | -0x8000_0000 <= i < 0x8000_0000

  // ---- writing --------------------------------------------------------------------------------

  /** Seven bits a byte, the lowest first; every byte but the last has its top bit set. */
  function Varint(n: nat): (r: seq<Byte>)
    ensures |r| >= 1
  {
    if n < 128 then [n] else [128 + n % 128] + Varint(n / 128)
  }

  /** A negative number is written as the 64-bit two's complement, always ten bytes. */
  function Int32Bytes(i: Int32): seq<Byte> {
    Varint(if i < 0 then i + Two64 else i)
  }

  function BoolBytes(b: bool): seq<Byte> {
    [if b then 1 else 0]
  }

  function Delimited(bytes: seq<Byte>): seq<Byte> {
    Varint(|bytes|) + bytes
  }

  // ---- reading --------------------------------------------------------------------------------

  /** None when the bytes run out, or the last of `room` bytes still asks for another. */
  function ReadVarint(b: seq<Byte>, room: nat): (r: Option<Read<nat>>)
    ensures r.Some? ==> |r.value.rest| < |b|
    decreases |b|
  {
    if b == [] || room == 0 then None
    else if b[0] < 128 then Some(Read(b[0], b[1..]))
    else match ReadVarint(b[1..], room - 1)
         case Some(more) => Some(Read(b[0] - 128 + 128 * more.value, more.rest))
         case None => None
  }

  function ReadUint32(b: seq<Byte>): (r: Option<Read<nat>>)
    ensures r.Some? ==> |r.value.rest| < |b| && r.value.value < Two32
  {
    match ReadVarint(b, 10)
    case Some(v) => Some(Read(v.value % Two32, v.rest))
    case None => None
  }

  function ReadInt32(b: seq<Byte>): (r: Option<Read<Int32>>)
    ensures r.Some? ==> |r.value.rest| < |b|
  {
    match ReadUint32(b)
    case Some(v) => Some(Read(if v.value < Two31 then v.value else v.value - Two32, v.rest))
    case None => None
  }

  function ReadBool(b: seq<Byte>): (r: Option<Read<bool>>)
    ensures r.Some? ==> |r.value.rest| < |b|
  {
    match ReadVarint(b, 10)
    case Some(v) => Some(Read(v.value % Two64 != 0, v.rest))
    case None => None
  }

  function ReadBytes(b: seq<Byte>): (r: Option<Read<seq<Byte>>>)
    ensures r.Some? ==> |r.value.rest| < |b|
  {
    match ReadUint32(b)
    case Some(n) =>
      if n.value <= |n.rest| then Some(Read(n.rest[..n.value], n.rest[n.value..])) else None
    case None => None
  }

  /** The library's reader decodes with a default TextDecoder. */
  function ReadString(b: seq<Byte>): (r: Option<Read<Text>>)
    ensures r.Some? ==> |r.value.rest| < |b|
  {
    match ReadBytes(b)
    case Some(s) => Some(Read(Utf8.DecodeText(s.value), s.rest))
    case None => None
  }

  function SkipVarint(b: seq<Byte>): (r: Option<seq<Byte>>)
    ensures r.Some? ==> |r.value| < |b|
  {
    if b == [] then None else if b[0] < 128 then Some(b[1..]) else SkipVarint(b[1..])
  }

  function Drop(b: seq<Byte>, n: nat): Option<seq<Byte>> {
    if n <= |b| then Some(b[n..]) else None
  }

  /**
     The bytes after a field's payload, going by its wire type alone. A group (wire type 3) runs to the tag that
     ends it, which has to bear the group's number where that is known.
   */
  function Skip(wire: nat, number: Option<nat>, b: seq<Byte>): (r: Option<seq<Byte>>)
    ensures r.Some? ==> |r.value| <= |b|
    decreases |b|, 1
  {
    match wire
    case 0 => SkipVarint(b)
    case 1 => Drop(b, 8)
    case 2 => (match ReadBytes(b) case Some(s) => Some(s.rest) case None => None)
    case 3 => SkipGroup(number, b)
    case 5 => Drop(b, 4)
    case _ => None
  }

  function SkipGroup(number: Option<nat>, b: seq<Byte>): (r: Option<seq<Byte>>)
    ensures r.Some? ==> |r.value| < |b|
    decreases |b|, 0
  {
    match ReadUint32(b)
    case None => None
    case Some(tag) =>
      if tag.value / 8 == 0 || tag.value % 8 > 5 then None
      else if tag.value % 8 == 4 then
        if number == None || number == Some(tag.value / 8) then Some(tag.rest) else None
      else match Skip(tag.value % 8, Some(tag.value / 8), tag.rest)
           case Some(rest) => SkipGroup(number, rest)
           case None => None
  }

  // ---- round trips ----------------------------------------------------------------------------

  function Pow128(k: nat): (p: nat)
    ensures p >= 1
  {
    if k == 0 then 1 else 128 * Pow128(k - 1)
  }

  lemma {:induction false} VarintLength(n: nat, k: nat)
    requires k >= 1 && n < Pow128(k)
    ensures |Varint(n)| <= k
  {
    if n >= 128 {
      VarintLength(n / 128, k - 1);
    }
  }

  /** The number that groups of seven bits make, the lowest first. */
  function Sevens(b: seq<Byte>): nat {
    if b == [] then 0 else b[0] % 128 + 128 * Sevens(b[1..])
  }

  /** A varint's groups make up its number, and only its last byte is below 128. */
  lemma {:induction false} VarintInFull(n: nat)
    ensures Sevens(Varint(n)) == n
    ensures forall i :: 0 <= i < |Varint(n)| ==> (Varint(n)[i] < 128 <==> i == |Varint(n)| - 1)
  {
    if n >= 128 {
      VarintInFull(n / 128);
      assert Varint(n)[1..] == Varint(n / 128);
    }
  }

  lemma {:induction false} VarintRoundTrip(n: nat, room: nat, rest: seq<Byte>)
    requires |Varint(n)| <= room
    ensures ReadVarint(Varint(n) + rest, room) == Some(Read(n, rest))
  {
    var b := Varint(n) + rest;
    if n < 128 {
      assert b[1..] == rest;
    } else {
      VarintRoundTrip(n / 128, room - 1, rest);
      assert b[1..] == Varint(n / 128) + rest;
    }
  }

  lemma Uint32RoundTrip(n: nat, rest: seq<Byte>)
    requires n < Two32
    ensures ReadUint32(Varint(n) + rest) == Some(Read(n, rest))
  {
    VarintLength(n, 10);
    VarintRoundTrip(n, 10, rest);
  }

  lemma Low32(i: int)
    requires -0x8000_0000 <= i < 0
    ensures (i + Two64) % Two32 == i + Two32
  {
    var n, q := i + Two32, 0xFFFF_FFFF;
    assert i + Two64 == n + q * Two32;
    assert 0 <= n < Two32;
  }

  /** Negative numbers included. */
  lemma Int32RoundTrip(i: Int32, rest: seq<Byte>)
    ensures ReadInt32(Int32Bytes(i) + rest) == Some(Read(i, rest))
  {
    var n: nat := if i < 0 then i + Two64 else i;
    VarintLength(n, 10);
    VarintRoundTrip(n, 10, rest);
    if i < 0 {
      Low32(i);
    }
  }

  lemma {:induction false} VarintLongerThan(n: nat, k: nat)
    requires n >= Pow128(k)
    ensures |Varint(n)| > k
  {
    if k > 0 {
      VarintLongerThan(n / 128, k - 1);
    }
  }

  lemma NegativeTakesTen(i: Int32)
    requires i < 0
    ensures |Int32Bytes(i)| == 10
  {
    VarintLength(i + Two64, 10);
    VarintLongerThan(i + Two64, 9);
  }

  lemma BoolRoundTrip(v: bool, rest: seq<Byte>)
    ensures ReadBool(BoolBytes(v) + rest) == Some(Read(v, rest))
  {
    assert (BoolBytes(v) + rest)[1..] == rest;
  }

  lemma BytesRoundTrip(bytes: seq<Byte>, rest: seq<Byte>)
    requires |bytes| < Two32
    ensures ReadBytes(Delimited(bytes) + rest) == Some(Read(bytes, rest))
  {
    Uint32RoundTrip(|bytes|, bytes + rest);
    assert Delimited(bytes) + rest == Varint(|bytes|) + (bytes + rest);
  }

  /** The payload of a field of wire type 0, 1, 2, 3 or 5, whatever it says. */
  predicate Payload(wire: nat, body: seq<Byte>) {
    match wire
    case 0 => body != [] && body[|body| - 1] < 128 && forall i :: 0 <= i < |body| - 1 ==> body[i] >= 128
    case 1 => |body| == 8
    case 2 => ReadBytes(body).Some? && ReadBytes(body).value.rest == []
    case 3 => SkipGroup(None, body) == Some([])
    case 5 => |body| == 4
    case _ => false
  }

  lemma {:induction false} SkipVarintRoundTrip(body: seq<Byte>, rest: seq<Byte>)
    requires Payload(0, body)
    ensures SkipVarint(body + rest) == Some(rest)
  {
    assert (body + rest)[1..] == body[1..] + rest;
    if |body| == 1 {
      assert body[1..] + rest == rest;
    } else {
      SkipVarintRoundTrip(body[1..], rest);
    }
  }

  lemma {:induction false} ReadVarintMore(b: seq<Byte>, room: nat, rest: seq<Byte>)
    requires ReadVarint(b, room).Some?
    ensures ReadVarint(b + rest, room)
         == Some(Read(ReadVarint(b, room).value.value, ReadVarint(b, room).value.rest + rest))
    decreases room
  {
    assert (b + rest)[1..] == b[1..] + rest;
    if b[0] >= 128 {
      ReadVarintMore(b[1..], room - 1, rest);
    }
  }

  /** A read takes the bytes up to the first one below 128, minimal or not, and makes them up as groups of seven bits. */
  lemma {:induction false} ReadInFull(b: seq<Byte>, room: nat)
    requires ReadVarint(b, room).Some?
    ensures var r := ReadVarint(b, room).value; var k := |b| - |r.rest|;
      && 1 <= k <= room && r.rest == b[k..] && r.value == Sevens(b[..k])
      && b[k - 1] < 128 && forall i :: 0 <= i < k - 1 ==> b[i] >= 128
    decreases room
  {
    if b[0] >= 128 {
      ReadInFull(b[1..], room - 1);
      var k := |b| - |ReadVarint(b, room).value.rest|;
      assert b[..k][1..] == b[1..][..k - 1];
    } else {
      assert b[..1][1..] == [] && Sevens([]) == 0;
    }
  }

  lemma ReadBytesMore(b: seq<Byte>, rest: seq<Byte>)
    requires ReadBytes(b).Some?
    ensures ReadBytes(b + rest) == Some(Read(ReadBytes(b).value.value, ReadBytes(b).value.rest + rest))
  {
    ReadVarintMore(b, 10, rest);
    var n := ReadUint32(b).value;
    assert (n.rest + rest)[..n.value] == n.rest[..n.value];
    assert (n.rest + rest)[n.value..] == n.rest[n.value..] + rest;
  }

  lemma {:induction false} SkipVarintMore(b: seq<Byte>, rest: seq<Byte>)
    requires SkipVarint(b).Some?
    ensures SkipVarint(b + rest) == Some(SkipVarint(b).value + rest)
  {
    assert (b + rest)[1..] == b[1..] + rest;
    if b[0] >= 128 {
      SkipVarintMore(b[1..], rest);
    }
  }

  lemma {:induction false} SkipMore(wire: nat, number: Option<nat>, b: seq<Byte>, rest: seq<Byte>)
    requires Skip(wire, number, b).Some?
    ensures Skip(wire, number, b + rest) == Some(Skip(wire, number, b).value + rest)
    decreases |b|, 1
  {
    if wire == 0 {
      SkipVarintMore(b, rest);
    } else if wire == 2 {
      ReadBytesMore(b, rest);
    } else if wire == 3 {
      SkipGroupMore(number, b, rest);
    } else {
      var n := if wire == 1 then 8 else 4;
      assert (b + rest)[n..] == b[n..] + rest;
    }
  }

  lemma {:induction false} SkipGroupMore(number: Option<nat>, b: seq<Byte>, rest: seq<Byte>)
    requires SkipGroup(number, b).Some?
    ensures SkipGroup(number, b + rest) == Some(SkipGroup(number, b).value + rest)
    decreases |b|, 0
  {
    ReadVarintMore(b, 10, rest);
    var tag := ReadUint32(b).value;
    if tag.value % 8 != 4 {
      SkipMore(tag.value % 8, Some(tag.value / 8), tag.rest, rest);
      SkipGroupMore(number, Skip(tag.value % 8, Some(tag.value / 8), tag.rest).value, rest);
    }
  }

  /** Skipping goes exactly to the end of the payload. */
  lemma SkipRoundTrip(wire: nat, body: seq<Byte>, rest: seq<Byte>)
    requires Payload(wire, body)
    ensures Skip(wire, None, body + rest) == Some(rest)
  {
    if wire == 0 {
      SkipVarintRoundTrip(body, rest);
    } else {
      assert body[|body|..] == [];
      SkipMore(wire, None, body, rest);
      assert [] + rest == rest;
    }
  }

  // ---- what a read leaves is the end of what it was given -------------------------------------

  predicate IsSuffix(t: seq<Byte>, s: seq<Byte>) {
    |t| <= |s| && t == s[|s| - |t|..]
  }

  lemma {:induction false} VarintLeavesSuffix(b: seq<Byte>, room: nat)
    requires ReadVarint(b, room).Some?
    ensures IsSuffix(ReadVarint(b, room).value.rest, b)
    decreases |b|
  {
    if b[0] >= 128 {
      VarintLeavesSuffix(b[1..], room - 1);
    }
  }

  lemma ReadLeavesSuffix(b: seq<Byte>)
    ensures ReadUint32(b).Some? ==> IsSuffix(ReadUint32(b).value.rest, b)
    ensures ReadInt32(b).Some? ==> IsSuffix(ReadInt32(b).value.rest, b)
    ensures ReadBool(b).Some? ==> IsSuffix(ReadBool(b).value.rest, b)
    ensures ReadBytes(b).Some? ==> IsSuffix(ReadBytes(b).value.rest, b)
    ensures ReadString(b).Some? ==> IsSuffix(ReadString(b).value.rest, b)
  {
    if ReadVarint(b, 10).Some? {
      VarintLeavesSuffix(b, 10);
    }
  }

  lemma {:induction false} SkipVarintLeavesSuffix(b: seq<Byte>)
    requires SkipVarint(b).Some?
    ensures IsSuffix(SkipVarint(b).value, b)
  {
    if b[0] >= 128 {
      SkipVarintLeavesSuffix(b[1..]);
    }
  }

  lemma SuffixOfSuffix(u: seq<Byte>, t: seq<Byte>, s: seq<Byte>)
    requires IsSuffix(u, t) && IsSuffix(t, s)
    ensures IsSuffix(u, s)
  {}

  lemma {:induction false} SkipLeavesSuffix(wire: nat, number: Option<nat>, b: seq<Byte>)
    requires Skip(wire, number, b).Some?
    ensures IsSuffix(Skip(wire, number, b).value, b)
    decreases |b|, 1
  {
    if wire == 0 {
      SkipVarintLeavesSuffix(b);
    } else if wire == 3 {
      SkipGroupLeavesSuffix(number, b);
    }
    ReadLeavesSuffix(b);
  }

  lemma {:induction false} SkipGroupLeavesSuffix(number: Option<nat>, b: seq<Byte>)
    requires SkipGroup(number, b).Some?
    ensures IsSuffix(SkipGroup(number, b).value, b)
    decreases |b|, 0
  {
    ReadLeavesSuffix(b);
    var tag := ReadUint32(b).value;
    if tag.value % 8 != 4 {
      var field := Skip(tag.value % 8, Some(tag.value / 8), tag.rest).value;
      SkipLeavesSuffix(tag.value % 8, Some(tag.value / 8), tag.rest);
      SkipGroupLeavesSuffix(number, field);
      SuffixOfSuffix(field, tag.rest, b);
      SuffixOfSuffix(SkipGroup(number, field).value, field, b);
    }
  }
}
