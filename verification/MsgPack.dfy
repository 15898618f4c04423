/** MessagePack as the payload writer uses it: an encoder in shortest form, an
    independent decoder of the format (MessagePack specification, Formats section),
    and the round trip between them. */
module MsgPack {
  import opened Widths

  datatype Value =
    | Int(n: int)
    | Bool(b: bool)
    | Str(s: Bytes)
    | Bin(s: Bytes)
    | Arr(items: seq<Value>)
    | Map(pairs: seq<Pair>)

  datatype Pair = Pair(key: Bytes, value: Value)

  /** Integers of 64 bits, signed or unsigned, and lengths of 32 bits. */
  predicate Encodable(v: Value) {
    match v
    case Int(n) => -U63 <= n < U64
    case Bool(_) => true
    case Str(s) => |s| < U32
    case Bin(s) => |s| < U32
    case Arr(items) => |items| < U32 && forall i :: 0 <= i < |items| ==> Encodable(items[i])
    case Map(pairs) =>
      |pairs| < U32 && forall i :: 0 <= i < |pairs| ==> |pairs[i].key| < U32 && Encodable(pairs[i].value)
  }

  // ----- big-endian numbers -----

  function Pow256(k: nat): nat {
    if k == 0 then 1 else 256 * Pow256(k - 1)
  }

  function BigEndian(n: nat, k: nat): (b: Bytes)
    ensures |b| == k
  {
    if k == 0 then [] else BigEndian(n / 256, k - 1) + [(n % 256) as byte]
  }

  function Number(b: Bytes): nat {
    if b == [] then 0 else 256 * Number(b[..|b| - 1]) + b[|b| - 1] as nat
  }

  lemma {:induction false} NumberOfBigEndian(n: nat, k: nat)
    requires n < Pow256(k)
    ensures Number(BigEndian(n, k)) == n
  {
    if k > 0 {
      NumberOfBigEndian(n / 256, k - 1);
      var b := BigEndian(n, k);
      assert b[..|b| - 1] == BigEndian(n / 256, k - 1);
    }
  }

  lemma {:induction false} NumberIsBounded(b: Bytes)
    ensures Number(b) < Pow256(|b|)
  {
    if b != [] {
      NumberIsBounded(b[..|b| - 1]);
    }
  }

  lemma Widths256()
    ensures Pow256(1) == 0x100 && Pow256(2) == 0x1_0000 && Pow256(4) == U32 && Pow256(8) == U64
  {
    assert Pow256(3) == 0x100_0000;
    assert Pow256(5) == 0x100_0000_0000;
    assert Pow256(6) == 0x1_0000_0000_0000;
    assert Pow256(7) == 0x100_0000_0000_0000;
  }

  // ----- encoding -----

  function IntBytes(n: int): Bytes
    requires -U63 <= n < U64
  {
    if 0 <= n <= 0x7f then [n as byte]
    else if 0 <= n < 0x100 then [0xcc] + BigEndian(n, 1)
    else if 0 <= n < 0x1_0000 then [0xcd] + BigEndian(n, 2)
    else if 0 <= n < U32 then [0xce] + BigEndian(n, 4)
    else if 0 <= n then [0xcf] + BigEndian(n, 8)
    else if -32 <= n then [(n + 0x100) as byte]
    else if -0x80 <= n then [0xd0] + BigEndian(n + 0x100, 1)
    else if -0x8000 <= n then [0xd1] + BigEndian(n + 0x1_0000, 2)
    else if -0x8000_0000 <= n then [0xd2] + BigEndian(n + U32, 4)
    else [0xd3] + BigEndian(n + U64, 8)
  }

  function MapHead(len: nat): Bytes
    requires len < U32
  {
    if len <= 15 then [(0x80 + len) as byte]
    else if len < 0x1_0000 then [0xde] + BigEndian(len, 2)
    else [0xdf] + BigEndian(len, 4)
  }

  function ArrayHead(len: nat): Bytes
    requires len < U32
  {
    if len <= 15 then [(0x90 + len) as byte]
    else if len < 0x1_0000 then [0xdc] + BigEndian(len, 2)
    else [0xdd] + BigEndian(len, 4)
  }

  function StrHead(len: nat): Bytes
    requires len < U32
  {
    if len <= 31 then [(0xa0 + len) as byte]
    else if len < 0x100 then [0xd9] + BigEndian(len, 1)
    else if len < 0x1_0000 then [0xda] + BigEndian(len, 2)
    else [0xdb] + BigEndian(len, 4)
  }

  function BinHead(len: nat): Bytes
    requires len < U32
  {
    if len < 0x100 then [0xc4] + BigEndian(len, 1)
    else if len < 0x1_0000 then [0xc5] + BigEndian(len, 2)
    else [0xc6] + BigEndian(len, 4)
  }

  function StrBytes(s: Bytes): Bytes
    requires |s| < U32
  {
    StrHead(|s|) + s
  }

  function Encode(v: Value): Bytes
    requires Encodable(v)
  {
    match v
    case Int(n) => IntBytes(n)
    case Bool(b) => [if b then 0xc3 else 0xc2]
    case Str(s) => StrBytes(s)
    case Bin(s) => BinHead(|s|) + s
    case Arr(items) => ArrayHead(|items|) + EncodeAll(items)
    case Map(pairs) => MapHead(|pairs|) + EncodePairs(pairs)
  }

  function EncodeAll(items: seq<Value>): Bytes
    requires forall i :: 0 <= i < |items| ==> Encodable(items[i])
  {
    if items == [] then [] else Encode(items[0]) + EncodeAll(items[1..])
  }

  predicate PairEncodable(p: Pair) {
    |p.key| < U32 && Encodable(p.value)
  }

  function PairBytes(p: Pair): Bytes
    requires PairEncodable(p)
  {
    StrBytes(p.key) + Encode(p.value)
  }

  function EncodePairs(pairs: seq<Pair>): Bytes
    requires forall i :: 0 <= i < |pairs| ==> PairEncodable(pairs[i])
  {
    if pairs == [] then [] else PairBytes(pairs[0]) + EncodePairs(pairs[1..])
  }

  // ----- decoding -----

  /** A value and the bytes after it. */
  datatype Parsed<+T> = Parsed(value: T, rest: Bytes)

  /** The two's complement reading of `k` bytes. */
  function Signed(n: nat, k: nat): int {
    if 2 * n < Pow256(k) then n else n - Pow256(k)
  }

  function TakeNumber(b: Bytes, k: nat): (r: Option<Parsed<nat>>)
    ensures r.Some? ==> |r.value.rest| + k == |b|
  {
    if |b| < k then None else Some(Parsed(Number(b[..k]), b[k..]))
  }

  function TakeBytes(b: Bytes, k: nat): (r: Option<Parsed<Bytes>>)
    ensures r.Some? ==> |r.value.rest| + k == |b|
  {
    if |b| < k then None else Some(Parsed(b[..k], b[k..]))
  }

  type Width = k: nat | 0 < k witness 1

  /** What a leading byte announces: a finished value, or a number of `k` bytes that
      is an integer or a length. */
  datatype Lead =
    | Done(v: Value)
    | Unsigned(k: Width)
    | SignedInt(k: Width)
    | StrLead(k: Width)
    | BinLead(k: Width)
    | ArrLead(k: Width)
    | MapLead(k: Width)
    | StrOf(len: nat)
    | ArrOf(len: nat)
    | MapOf(len: nat)
    | Unused

  function LeadOf(b: byte): Lead {
    var x := b as nat;
    if x <= 0x7f then Done(Int(x))
    else if x <= 0x8f then MapOf(x - 0x80)
    else if x <= 0x9f then ArrOf(x - 0x90)
    else if x <= 0xbf then StrOf(x - 0xa0)
    else if x >= 0xe0 then Done(Int(x - 0x100))
    else match x
      case 0xc2 => Done(Bool(false))
      case 0xc3 => Done(Bool(true))
      case 0xc4 => BinLead(1)
      case 0xc5 => BinLead(2)
      case 0xc6 => BinLead(4)
      case 0xcc => Unsigned(1)
      case 0xcd => Unsigned(2)
      case 0xce => Unsigned(4)
      case 0xcf => Unsigned(8)
      case 0xd0 => SignedInt(1)
      case 0xd1 => SignedInt(2)
      case 0xd2 => SignedInt(4)
      case 0xd3 => SignedInt(8)
      case 0xd9 => StrLead(1)
      case 0xda => StrLead(2)
      case 0xdb => StrLead(4)
      case 0xdc => ArrLead(2)
      case 0xdd => ArrLead(4)
      case 0xde => MapLead(2)
      case 0xdf => MapLead(4)
      case _ => Unused
  }

  function StrOrBin(bin: bool, b: Bytes, len: nat): (r: Option<Parsed<Value>>)
    ensures r.Some? ==> |r.value.rest| <= |b| && (r.value.value.Str? || r.value.value.Bin?)
  {
    var s := TakeBytes(b, len);
    if s.None? then None else Some(Parsed(if bin then Bin(s.value.value) else Str(s.value.value), s.value.rest))
  }

  /** Decodes one value from the front of `b`. */
  function Decode(b: Bytes): (r: Option<Parsed<Value>>)
    ensures r.Some? ==> |r.value.rest| < |b|
    decreases |b|, 0
  {
    if b == [] then None else DecodeLead(LeadOf(b[0]), b[1..])
  }

  /** The value that a leading byte and the bytes after it stand for. */
  function DecodeLead(lead: Lead, tail: Bytes): (r: Option<Parsed<Value>>)
    ensures r.Some? ==> |r.value.rest| <= |tail|
    decreases |tail|, if lead.ArrOf? || lead.MapOf? then lead.len + 3 else 0
  {
    match lead
    case Unused => None
    case Done(v) => Some(Parsed(v, tail))
    case StrOf(len) => StrOrBin(false, tail, len)
    case ArrOf(len) => DecodeArr(tail, len)
    case MapOf(len) => DecodeMap(tail, len)
    case _ =>
      var n := TakeNumber(tail, lead.k);
      if n.None? then None else DecodeNumbered(lead, n.value.value, n.value.rest)
  }

  /** The value that follows a leading byte and its number. */
  function DecodeNumbered(lead: Lead, n: nat, rest: Bytes): (r: Option<Parsed<Value>>)
    ensures r.Some? ==> |r.value.rest| <= |rest|
    decreases |rest|, n + 3
  {
    match lead
    case Unsigned(k) => Some(Parsed(Int(n), rest))
    case SignedInt(k) => Some(Parsed(Int(Signed(n, k)), rest))
    case StrLead(k) => StrOrBin(false, rest, n)
    case BinLead(k) => StrOrBin(true, rest, n)
    case ArrLead(k) => DecodeArr(rest, n)
    case MapLead(k) => DecodeMap(rest, n)
    case _ => None
  }

  function DecodeArr(b: Bytes, n: nat): (r: Option<Parsed<Value>>)
    ensures r.Some? ==> |r.value.rest| <= |b| && r.value.value.Arr?
    decreases |b|, n + 2
  {
    var xs := DecodeAll(b, n);
    if xs.None? then None else Some(Parsed(Arr(xs.value.value), xs.value.rest))
  }

  function DecodeMap(b: Bytes, n: nat): (r: Option<Parsed<Value>>)
    ensures r.Some? ==> |r.value.rest| <= |b| && r.value.value.Map?
    decreases |b|, n + 2
  {
    var ps := DecodePairs(b, n);
    if ps.None? then None else Some(Parsed(Map(ps.value.value), ps.value.rest))
  }

  function DecodeAll(b: Bytes, n: nat): (r: Option<Parsed<seq<Value>>>)
    ensures r.Some? ==> |r.value.rest| <= |b|
    decreases |b|, n + 1
  {
    if n == 0 then Some(Parsed([], b))
    else
      var x := Decode(b);
      if x.None? then None
      else
        var xs := DecodeAll(x.value.rest, n - 1);
        if xs.None? then None else Some(Parsed([x.value.value] + xs.value.value, xs.value.rest))
  }

  /** Keys are strings. */
  function DecodePairs(b: Bytes, n: nat): (r: Option<Parsed<seq<Pair>>>)
    ensures r.Some? ==> |r.value.rest| <= |b|
    decreases |b|, n + 1
  {
    if n == 0 then Some(Parsed([], b))
    else
      var k := Decode(b);
      if k.None? || !k.value.value.Str? then None
      else
        var x := Decode(k.value.rest);
        if x.None? then None
        else
          var ps := DecodePairs(x.value.rest, n - 1);
          if ps.None? then None
          else Some(Parsed([Pair(k.value.value.s, x.value.value)] + ps.value.value, ps.value.rest))
  }

  // ----- the round trip -----

  lemma TakesNumber(n: nat, k: nat, rest: Bytes)
    requires n < Pow256(k)
    ensures TakeNumber(BigEndian(n, k) + rest, k) == Some(Parsed(n, rest))
  {
    NumberOfBigEndian(n, k);
    var b := BigEndian(n, k) + rest;
    assert b[..k] == BigEndian(n, k) && b[k..] == rest;
  }

  /** The leading bytes of strings, byte strings, arrays and maps. */
  lemma Leads(n: nat)
    ensures n <= 31 ==> LeadOf((0xa0 + n) as byte) == StrOf(n)
    ensures n <= 15 ==> LeadOf((0x90 + n) as byte) == ArrOf(n)
    ensures n <= 15 ==> LeadOf((0x80 + n) as byte) == MapOf(n)
    ensures LeadOf(0xd9) == StrLead(1) && LeadOf(0xda) == StrLead(2) && LeadOf(0xdb) == StrLead(4)
    ensures LeadOf(0xc4) == BinLead(1) && LeadOf(0xc5) == BinLead(2) && LeadOf(0xc6) == BinLead(4)
    ensures LeadOf(0xdc) == ArrLead(2) && LeadOf(0xdd) == ArrLead(4)
    ensures LeadOf(0xde) == MapLead(2) && LeadOf(0xdf) == MapLead(4)
  {}

  /** A leading byte and a number of `k` bytes. */
  lemma HeadDecodes(first: byte, n: nat, k: nat, body: Bytes)
    requires n < Pow256(k)
    ensures Decode([first] + BigEndian(n, k) + body) == DecodeLead(LeadOf(first), BigEndian(n, k) + body)
    ensures TakeNumber(BigEndian(n, k) + body, k) == Some(Parsed(n, body))
  {
    hide DecodeLead;
    hide LeadOf;
    hide BigEndian;
    hide Number;
    hide Pow256;
    var b := [first] + BigEndian(n, k) + body;
    assert b[1..] == BigEndian(n, k) + body;
    TakesNumber(n, k, body);
  }

  lemma ByteDecodes(first: byte, body: Bytes)
    ensures Decode([first] + body) == DecodeLead(LeadOf(first), body)
  {
    hide DecodeLead;
    hide LeadOf;
    assert ([first] + body)[1..] == body;
  }

  lemma UnsignedRoundTrip(first: byte, n: nat, k: Width, rest: Bytes)
    requires n < Pow256(k) && LeadOf(first) == Unsigned(k)
    ensures Decode([first] + BigEndian(n, k) + rest) == Some(Parsed(Int(n), rest))
  {
    hide LeadOf;
    hide Decode;
    HeadDecodes(first, n, k, rest);
  }

  lemma SignedRoundTrip(first: byte, n: int, k: Width, rest: Bytes)
    requires 0 <= Pow256(k) + 2 * n && n < 0 && LeadOf(first) == SignedInt(k)
    ensures Decode([first] + BigEndian(n + Pow256(k), k) + rest) == Some(Parsed(Int(n), rest))
  {
    hide LeadOf;
    hide Decode;
    HeadDecodes(first, n + Pow256(k), k, rest);
  }

  lemma IntRoundTrip(n: int, rest: Bytes)
    requires -U63 <= n < U64
    ensures Decode(IntBytes(n) + rest) == Some(Parsed(Int(n), rest))
  {
    hide Decode;
    Widths256();
    if -32 <= n <= 0x7f {
      ByteDecodes(IntBytes(n)[0], rest);
    } else if 0 <= n < 0x100 {
      UnsignedRoundTrip(0xcc, n, 1, rest);
    } else if 0 <= n < 0x1_0000 {
      UnsignedRoundTrip(0xcd, n, 2, rest);
    } else if 0 <= n < U32 {
      UnsignedRoundTrip(0xce, n, 4, rest);
    } else if 0 <= n {
      UnsignedRoundTrip(0xcf, n, 8, rest);
    } else if -0x80 <= n {
      SignedRoundTrip(0xd0, n, 1, rest);
    } else if -0x8000 <= n {
      SignedRoundTrip(0xd1, n, 2, rest);
    } else if -0x8000_0000 <= n {
      SignedRoundTrip(0xd2, n, 4, rest);
    } else {
      SignedRoundTrip(0xd3, n, 8, rest);
    }
  }

  lemma StrOrBinRoundTrip(bin: bool, s: Bytes, rest: Bytes)
    ensures StrOrBin(bin, s + rest, |s|) == Some(Parsed(if bin then Bin(s) else Str(s), rest))
  {
    assert (s + rest)[..|s|] == s && (s + rest)[|s|..] == rest;
  }

  lemma StrRoundTrip(s: Bytes, rest: Bytes)
    requires |s| < U32
    ensures Decode(StrBytes(s) + rest) == Some(Parsed(Str(s), rest))
  {
    hide Decode;
    hide StrOrBin;
    Leads(|s|);
    hide LeadOf;
    hide Number;
    hide BigEndian;
    Widths256();
    hide Pow256;
    var body := s + rest;
    assert StrBytes(s) + rest == StrHead(|s|) + body;
    StrOrBinRoundTrip(false, s, rest);
    if |s| <= 31 {
      ByteDecodes((0xa0 + |s|) as byte, body);
    } else if |s| < 0x100 {
      HeadDecodes(0xd9, |s|, 1, body);
    } else if |s| < 0x1_0000 {
      HeadDecodes(0xda, |s|, 2, body);
    } else {
      HeadDecodes(0xdb, |s|, 4, body);
    }
  }

  lemma BinRoundTrip(s: Bytes, rest: Bytes)
    requires |s| < U32
    ensures Decode(BinHead(|s|) + s + rest) == Some(Parsed(Bin(s), rest))
  {
    hide Decode;
    hide StrOrBin;
    Leads(|s|);
    hide LeadOf;
    hide Number;
    hide BigEndian;
    Widths256();
    hide Pow256;
    var body := s + rest;
    assert BinHead(|s|) + s + rest == BinHead(|s|) + body;
    StrOrBinRoundTrip(true, s, rest);
    if |s| < 0x100 {
      HeadDecodes(0xc4, |s|, 1, body);
    } else if |s| < 0x1_0000 {
      HeadDecodes(0xc5, |s|, 2, body);
    } else {
      HeadDecodes(0xc6, |s|, 4, body);
    }
  }

  lemma ArrayHeadDecodes(n: nat, body: Bytes)
    requires n < U32
    ensures Decode(ArrayHead(n) + body) == DecodeArr(body, n)
  {
    hide Decode;
    hide DecodeArr;
    Leads(n);
    hide LeadOf;
    hide Number;
    hide BigEndian;
    Widths256();
    hide Pow256;
    if n <= 15 {
      ByteDecodes((0x90 + n) as byte, body);
    } else if n < 0x1_0000 {
      HeadDecodes(0xdc, n, 2, body);
    } else {
      HeadDecodes(0xdd, n, 4, body);
    }
  }

  lemma MapHeadDecodes(n: nat, body: Bytes)
    requires n < U32
    ensures Decode(MapHead(n) + body) == DecodeMap(body, n)
  {
    hide Decode;
    hide DecodeMap;
    Leads(n);
    hide LeadOf;
    hide Number;
    hide BigEndian;
    Widths256();
    hide Pow256;
    if n <= 15 {
      ByteDecodes((0x80 + n) as byte, body);
    } else if n < 0x1_0000 {
      HeadDecodes(0xde, n, 2, body);
    } else {
      HeadDecodes(0xdf, n, 4, body);
    }
  }

  /** Decoding what was written, followed by anything, gives back the value and
      exactly what followed it. */
  lemma {:induction false} RoundTrip(v: Value, rest: Bytes)
    requires Encodable(v)
    ensures Decode(Encode(v) + rest) == Some(Parsed(v, rest))
    decreases v
  {
    hide Decode;
    hide IntBytes;
    hide StrBytes;
    match v {
      case Int(n) => IntRoundTrip(n, rest);
      case Bool(b) => BoolRoundTrip(b, rest);
      case Str(s) => StrRoundTrip(s, rest);
      case Bin(s) => BinRoundTrip(s, rest);
      case Arr(items) =>
        RoundTripAll(items, rest);
        ArrayFrom(items, rest);
      case Map(pairs) =>
        RoundTripPairs(pairs, rest);
        MapFrom(pairs, rest);
    }
  }

  lemma ArrayFrom(items: seq<Value>, rest: Bytes)
    requires Encodable(Arr(items)) && DecodeAll(EncodeAll(items) + rest, |items|) == Some(Parsed(items, rest))
    ensures Decode(Encode(Arr(items)) + rest) == Some(Parsed(Arr(items), rest))
  {
    hide Decode;
    hide ArrayHead;
    assert Encode(Arr(items)) + rest == ArrayHead(|items|) + (EncodeAll(items) + rest);
    ArrayHeadDecodes(|items|, EncodeAll(items) + rest);
    hide Encode;
    hide EncodeAll;
    hide DecodeAll;
  }

  lemma MapFrom(pairs: seq<Pair>, rest: Bytes)
    requires Encodable(Map(pairs)) && DecodePairs(EncodePairs(pairs) + rest, |pairs|) == Some(Parsed(pairs, rest))
    ensures Decode(Encode(Map(pairs)) + rest) == Some(Parsed(Map(pairs), rest))
  {
    hide Decode;
    hide MapHead;
    assert Encode(Map(pairs)) + rest == MapHead(|pairs|) + (EncodePairs(pairs) + rest);
    MapHeadDecodes(|pairs|, EncodePairs(pairs) + rest);
    hide Encode;
    hide EncodePairs;
    hide DecodePairs;
  }

  lemma BoolRoundTrip(b: bool, rest: Bytes)
    ensures Decode(Encode(Bool(b)) + rest) == Some(Parsed(Bool(b), rest))
  {
    hide Decode;
    ByteDecodes(if b then 0xc3 else 0xc2, rest);
  }

  lemma {:induction false} RoundTripAll(items: seq<Value>, rest: Bytes)
    requires forall i :: 0 <= i < |items| ==> Encodable(items[i])
    ensures DecodeAll(EncodeAll(items) + rest, |items|) == Some(Parsed(items, rest))
    decreases items
  {
    hide Decode;
    hide Encode;
    hide DecodeAll;
    if items == [] {
      NoItems(rest);
    } else {
      var after := EncodeAll(items[1..]) + rest;
      assert EncodeAll(items) + rest == Encode(items[0]) + after;
      RoundTrip(items[0], after);
      RoundTripAll(items[1..], rest);
      NextItemDecodes(EncodeAll(items) + rest, items[0], after, |items| - 1);
      assert items == [items[0]] + items[1..];
    }
  }

  lemma NoItems(rest: Bytes)
    ensures DecodeAll(EncodeAll([]) + rest, 0) == Some(Parsed([], rest))
  {
    assert EncodeAll([]) + rest == rest;
  }

  /** One value in front of the others. */
  lemma NextItemDecodes(b: Bytes, v: Value, after: Bytes, n: nat)
    requires Decode(b) == Some(Parsed(v, after)) && DecodeAll(after, n).Some?
    ensures
      var others := DecodeAll(after, n).value;
      DecodeAll(b, n + 1) == Some(Parsed([v] + others.value, others.rest))
  {
    hide Decode;
  }

  lemma {:induction false} RoundTripPairs(pairs: seq<Pair>, rest: Bytes)
    requires forall i :: 0 <= i < |pairs| ==> PairEncodable(pairs[i])
    ensures DecodePairs(EncodePairs(pairs) + rest, |pairs|) == Some(Parsed(pairs, rest))
    decreases pairs
  {
    hide Decode;
    hide Encode;
    if pairs == [] {
      assert EncodePairs(pairs) + rest == rest;
    } else {
      var p := pairs[0];
      var after := EncodePairs(pairs[1..]) + rest;
      assert EncodePairs(pairs) + rest == StrBytes(p.key) + (Encode(p.value) + after);
      StrRoundTrip(p.key, Encode(p.value) + after);
      RoundTrip(p.value, after);
      RoundTripPairs(pairs[1..], rest);
      assert pairs == [p] + pairs[1..];
    }
  }

  /** No byte string that decodes to an integer is shorter than what is written
      for it. */
  lemma IntegersAreShortest(n: int, b: Bytes)
    requires -U63 <= n < U64
    requires Decode(b) == Some(Parsed(Int(n), []))
    ensures |IntBytes(n)| <= |b|
  {
    var lead, tail := LeadOf(b[0]), b[1..];
    assert DecodeLead(lead, tail) == Some(Parsed(Int(n), []));
    hide Decode;
    LeadIsKnown(b[0]);
    LeadBounds(lead, tail, n);
    IntLength(n);
    hide LeadOf;
    hide IntBytes;
    hide DecodeLead;
    hide BigEndian;
  }

  lemma LeadIsKnown(b: byte)
    ensures
      match LeadOf(b)
      case Done(v) => v.Int? ==> -32 <= v.n <= 0x7f
      case Unsigned(k) => IntWidth(k)
      case SignedInt(k) => IntWidth(k)
      case _ => true
  {}

  predicate IntWidth(k: nat) {
    k == 1 || k == 2 || k == 4 || k == 8
  }

  /** Which integers fit `k` bytes after the leading one. */
  predicate Holds(k: nat, n: int) {
    if k == 0 then -32 <= n <= 0x7f else IntWidth(k) && 0 <= Pow256(k) + 2 * n && n < Pow256(k)
  }

  lemma LeadBounds(lead: Lead, tail: Bytes, n: int)
    requires DecodeLead(lead, tail) == Some(Parsed(Int(n), []))
    requires lead.Done? ==> -32 <= n <= 0x7f
    requires lead.Unsigned? || lead.SignedInt? ==> IntWidth(lead.k)
    ensures Holds(|tail|, n)
  {
    hide DecodeArr;
    hide DecodeMap;
    hide Pow256;
    hide StrOrBin;
    hide BigEndian;
    if lead.Unsigned? || lead.SignedInt? {
      assert |tail| == lead.k;
      assert tail[..lead.k] == tail;
      NumberIsBounded(tail);
      hide Number;
    }
  }

  lemma IntLength(n: int)
    requires -U63 <= n < U64
    ensures forall k: nat :: Holds(k, n) ==> |IntBytes(n)| <= 1 + k
  {
    Widths256();
    hide Pow256;
    hide BigEndian;
  }
}
