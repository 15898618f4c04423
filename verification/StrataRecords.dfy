/** The StrataFS audit records and the C writer that measures when it has no buffer:
    the measuring and the writing pass agree on every input, so the buffer sized by
    the first is filled exactly by the second, and a reduced record always fits the
    fixed stack buffer. */
module StrataRecords {
  import opened Widths
  import opened MsgPack
  import opened PayloadWriter

  const PATH_MAX: nat := 4096
  const REDUCED_MAX: nat := 192

  // ----- the forms the C writer uses -----

  /** A 32-bit value is always written in four bytes. */
  function U32Form(n: u32): Bytes {
    [0xce] + BigEndian(n, 4)
  }

  function S32Form(n: i32): Bytes {
    [0xd2] + BigEndian(n % U32, 4)
  }

  function BoolForm(b: bool): Bytes {
    [if b then 0xc3 else 0xc2]
  }

  function KeyForm(key: string): Bytes
    requires |key| < 64
  {
    StrBytes(B(key))
  }

  /** A header of at most fifteen entries. */
  function MapForm(n: nat): Bytes
    requires n <= 15
  {
    [(0x80 + n) as byte]
  }

  /** Paths are reported with a leading slash. */
  function Slashed(relative: Bytes): Bytes {
    if relative == [] || relative[0] != 0x2f then [0x2f] + relative else relative
  }

  predicate IsPath(s: Bytes) {
    |s| < PATH_MAX
  }

  function ObjectForm(relative: Bytes): Bytes
    requires IsPath(relative)
  {
    KeyForm("object") + MapForm(1) + KeyForm("file") + MapForm(1) + KeyForm("path-relative") +
    StrBytes(Slashed(relative))
  }

  /** A stratum with its path, or in a reduced record without it. */
  function StratumForm(role: string, index: u32, path: Option<Bytes>): Bytes
    requires |role| < 64 && (path.Some? ==> IsPath(path.value))
  {
    KeyForm(role) + MapForm(1) + KeyForm("stratum") + MapForm(if path.Some? then 2 else 1) +
    KeyForm("index") + U32Form(index) +
    if path.Some? then KeyForm("path") + StrBytes(path.value) else []
  }

  datatype CopyUpRecord = CopyUpRecord(
    relative: Bytes, providerIndex: u32, provider: Bytes, createIndex: u32, create: Bytes, result: i32)

  predicate CopyUpFits(c: CopyUpRecord) {
    IsPath(c.relative) && IsPath(c.provider) && IsPath(c.create)
  }

  function Kept(path: Bytes, reduced: bool): Option<Bytes> {
    if reduced then None else Some(path)
  }

  function CopyUpOutcome(result: i32): Bytes {
    KeyForm("outcome") + MapForm(if result >= 0 then 1 else 2) + KeyForm("success") + BoolForm(result >= 0) +
    if result >= 0 then [] else KeyForm("errno") + S32Form(result)
  }

  function CopyUpBytes(c: CopyUpRecord, reduced: bool): Bytes
    requires CopyUpFits(c)
  {
    MapForm(if reduced then 3 else 4) +
    (if reduced then [] else ObjectForm(c.relative)) +
    StratumForm("source", c.providerIndex, Kept(c.provider, reduced)) +
    StratumForm("destination", c.createIndex, Kept(c.create, reduced)) +
    CopyUpOutcome(c.result)
  }

  datatype Refusal = Refusal(
    relative: Bytes, operation: Bytes, index: u32, provider: Option<Bytes>, result: i32, deferred: bool)

  predicate RefusalFits(c: Refusal) {
    IsPath(c.relative) && 0 < |c.operation| < 64 && (c.provider.Some? ==> IsPath(c.provider.value))
  }

  function OperationForm(operation: Bytes): Bytes
    requires |operation| < 64
  {
    KeyForm("operation") + MapForm(1) + KeyForm("name") + StrBytes(operation)
  }

  function RefusalSource(c: Refusal, reduced: bool): Bytes
    requires RefusalFits(c)
  {
    if c.provider.None? then [] else StratumForm("source", c.index, Kept(c.provider.value, reduced))
  }

  function RefusalOutcome(c: Refusal): Bytes {
    KeyForm("outcome") + MapForm(2) + KeyForm("errno") + S32Form(c.result) + KeyForm("deferred") + BoolForm(c.deferred)
  }

  function RefusalBytes(c: Refusal, reduced: bool): Bytes
    requires RefusalFits(c)
  {
    MapForm((if c.provider.Some? then 3 else 2) + (if reduced then 0 else 1)) +
    (if reduced then [] else ObjectForm(c.relative)) +
    OperationForm(c.operation) +
    RefusalSource(c, reduced) +
    RefusalOutcome(c)
  }

  // ----- sizes -----

  lemma FormSizes()
    ensures forall n: u32 :: |U32Form(n)| == 5
    ensures forall n: i32 :: |S32Form(n)| == 5
    ensures forall s: Bytes | |s| <= 31 :: |StrBytes(s)| == |s| + 1
    ensures forall s: Bytes | |s| < 0x100 :: |StrBytes(s)| <= |s| + 2
  {
    hide BigEndian;
  }

  lemma StratumIsSmall(role: string, index: u32)
    requires |role| <= 31
    ensures |StratumForm(role, index, None)| == |role| + 22
  {
    FormSizes();
    hide B;
    hide U32Form;
    hide StrBytes;
  }

  /** Every reduced record fits the stack buffer. */
  lemma ReducedCopyUpFits(c: CopyUpRecord)
    requires CopyUpFits(c)
    ensures |CopyUpBytes(c, true)| <= REDUCED_MAX
  {
    FormSizes();
    StratumIsSmall("source", c.providerIndex);
    StratumIsSmall("destination", c.createIndex);
    hide B;
    hide StratumForm;
    hide S32Form;
    hide StrBytes;
  }

  lemma ReducedRefusalFits(c: Refusal)
    requires RefusalFits(c)
    ensures |RefusalBytes(c, true)| <= REDUCED_MAX
  {
    FormSizes();
    StratumIsSmall("source", c.index);
    hide B;
    hide StratumForm;
    hide S32Form;
    hide StrBytes;
  }

  // ----- the writer -----

  class Mp {
    var out: array?<byte>
    var len: nat
    ghost var text: Bytes

    ghost predicate Valid()
      reads this, out
    {
      |text| == len && (out != null ==> len <= out.Length && out[..len] == text)
    }

    /** The buffer, if any, has room for `n` more bytes. */
    ghost predicate Room(n: nat)
      reads this, out
    {
      out != null ==> len + n <= out.Length
    }

    constructor ()
      ensures Valid() && out == null && text == []
    {
      out := null;
      len := 0;
      text := [];
    }

    /** Start again, into `buffer`. */
    method Rewind(buffer: array<byte>)
      modifies this
      ensures Valid() && out == buffer && text == []
    {
      out := buffer;
      len := 0;
      text := [];
      assert buffer[..0] == [];
    }

    method Raw(src: Bytes)
      requires Valid() && Room(|src|)
      modifies this`len, this`text, out
      ensures Valid() && text == old(text) + src
    {
      if out != null {
        for i := 0 to |src|
          invariant len == old(len) && text == old(text)
          invariant out[..len] == text
          invariant out[len..len + i] == src[..i]
        {
          out[len + i] := src[i];
        }
        assert out[..len + |src|] == out[..len] + out[len..len + |src|];
        assert src[..|src|] == src;
      }
      len := len + |src|;
      text := text + src;
    }

    // ----- pieces of one record -----

    /** The record that began after `start` now reads `done`, and the buffer, if any,
        has room for all its `total` bytes. */
    ghost predicate At(start: Bytes, done: Bytes, total: nat)
      reads this, out
    {
      Valid() && text == start + done && (out != null ==> |start| + total <= out.Length)
    }

    /** Seen from inside, a part of the record is a record of its own. */
    lemma Inside(start: Bytes, done: Bytes, total: nat)
      requires At(start, done, total) && |done| <= total
      ensures At(start + done, [], total - |done|)
    {
      assert start + done + [] == start + done;
    }

    lemma Outside(start: Bytes, done: Bytes, part: Bytes, total: nat)
      requires |done| <= total && At(start + done, part, total - |done|)
      ensures At(start, done + part, total)
    {
      assert start + done + part == start + (done + part);
    }

    method Piece(s: Bytes, ghost start: Bytes, ghost done: Bytes, ghost total: nat)
      requires At(start, done, total) && |done| + |s| <= total
      modifies this`len, this`text, out
      ensures At(start, done + s, total)
    {
      Raw(s);
      assert start + done + s == start + (done + s);
    }

    method Byte(b: byte, ghost start: Bytes, ghost done: Bytes, ghost total: nat)
      requires At(start, done, total) && |done| < total
      modifies this`len, this`text, out
      ensures At(start, done + [b], total)
    {
      Piece([b], start, done, total);
    }

    method StrHeader(n: nat, ghost start: Bytes, ghost done: Bytes, ghost total: nat)
      requires At(start, done, total) && n < 0x1_0000 && |done| + |StrHead(n)| <= total
      modifies this`len, this`text, out
      ensures At(start, done + StrHead(n), total)
    {
      hide At;
      if n <= 31 {
        Byte((0xa0 + n) as byte, start, done, total);
      } else if n <= 0xff {
        Byte(0xd9, start, done, total);
        Byte(n as byte, start, done + [0xd9], total);
        OneByte(n);
        assert done + [0xd9] + [n as byte] == done + StrHead(n);
      } else {
        var high, low := (n / 0x100) as byte, (n % 0x100) as byte;
        Byte(0xda, start, done, total);
        Byte(high, start, done + [0xda], total);
        Byte(low, start, done + [0xda] + [high], total);
        TwoBytes(n);
        assert done + [0xda] + [high] + [low] == done + StrHead(n);
      }
    }

    method Str(s: Bytes, ghost start: Bytes, ghost done: Bytes, ghost total: nat)
      requires At(start, done, total) && |s| < 0x1_0000 && |done| + |StrBytes(s)| <= total
      modifies this`len, this`text, out
      ensures At(start, done + StrBytes(s), total)
    {
      hide At;
      hide StrHead;
      StrHeader(|s|, start, done, total);
      Piece(s, start, done + StrHead(|s|), total);
      assert done + StrHead(|s|) + s == done + StrBytes(s);
    }

    method Key(key: string, ghost start: Bytes, ghost done: Bytes, ghost total: nat)
      requires At(start, done, total) && |key| < 64 && |done| + |KeyForm(key)| <= total
      modifies this`len, this`text, out
      ensures At(start, done + KeyForm(key), total)
    {
      hide At;
      hide StrBytes;
      Str(B(key), start, done, total);
    }

    method MapHeader(n: nat, ghost start: Bytes, ghost done: Bytes, ghost total: nat)
      requires At(start, done, total) && n <= 15 && |done| < total
      modifies this`len, this`text, out
      ensures At(start, done + MapForm(n), total)
    {
      hide At;
      Byte((0x80 + n) as byte, start, done, total);
    }

    method FourByteForm(lead: byte, n: u32, ghost start: Bytes, ghost done: Bytes, ghost total: nat)
      requires At(start, done, total) && |done| + 5 <= total
      modifies this`len, this`text, out
      ensures At(start, done + ([lead] + BigEndian(n, 4)), total)
    {
      hide At;
      var a, b, c, d := (n / 0x100_0000) as byte, (n / 0x1_0000 % 0x100) as byte, (n / 0x100 % 0x100) as byte,
                        (n % 0x100) as byte;
      Byte(lead, start, done, total);
      Byte(a, start, done + [lead], total);
      Byte(b, start, done + [lead] + [a], total);
      Byte(c, start, done + [lead] + [a] + [b], total);
      Byte(d, start, done + [lead] + [a] + [b] + [c], total);
      FourBytes(n);
      hide BigEndian;
      assert done + [lead] + [a] + [b] + [c] + [d] == done + ([lead] + BigEndian(n, 4));
    }

    method Unsigned(n: u32, ghost start: Bytes, ghost done: Bytes, ghost total: nat)
      requires At(start, done, total) && |done| + |U32Form(n)| <= total
      modifies this`len, this`text, out
      ensures At(start, done + U32Form(n), total)
    {
      hide At;
      hide BigEndian;
      FourByteForm(0xce, n, start, done, total);
    }

    method Signed(n: i32, ghost start: Bytes, ghost done: Bytes, ghost total: nat)
      requires At(start, done, total) && |done| + |S32Form(n)| <= total
      modifies this`len, this`text, out
      ensures At(start, done + S32Form(n), total)
    {
      hide At;
      hide BigEndian;
      FourByteForm(0xd2, n % U32, start, done, total);
    }

    method Bool(b: bool, ghost start: Bytes, ghost done: Bytes, ghost total: nat)
      requires At(start, done, total) && |done| < total
      modifies this`len, this`text, out
      ensures At(start, done + BoolForm(b), total)
    {
      hide At;
      Byte(if b then 0xc3 else 0xc2, start, done, total);
    }

    // ----- parts of a record -----

    method SlashedPath(relative: Bytes, ghost start: Bytes, ghost done: Bytes, ghost total: nat)
      requires At(start, done, total) && IsPath(relative) && |done| + |StrBytes(Slashed(relative))| <= total
      modifies this`len, this`text, out
      ensures At(start, done + StrBytes(Slashed(relative)), total)
    {
      hide At;
      hide StrHead;
      var addSlash := relative == [] || relative[0] != 0x2f;
      ghost var head := StrHead(|Slashed(relative)|);
      StrHeader(|relative| + if addSlash then 1 else 0, start, done, total);
      if addSlash {
        Byte(0x2f, start, done + head, total);
        Piece(relative, start, done + head + [0x2f], total);
        assert done + head + [0x2f] + relative == done + (head + ([0x2f] + relative));
      } else {
        Piece(relative, start, done + head, total);
        assert done + head + relative == done + (head + relative);
      }
    }

    method RelativePathObject(relative: Bytes, ghost start: Bytes, ghost done: Bytes, ghost total: nat)
      requires At(start, done, total) && IsPath(relative) && |done| + |ObjectForm(relative)| <= total
      modifies this`len, this`text, out
      ensures At(start, done + ObjectForm(relative), total)
    {
      hide At;
      hide KeyForm;
      hide StrBytes;
      hide Slashed;
      hide MapForm;
      FormSize();
      Inside(start, done, total);
      ghost var s, n := start + done, total - |done|;
      Key("object", s, [], n);
      ghost var d := KeyForm("object");
      assert [] + d == d;
      MapHeader(1, s, d, n);
      d := d + MapForm(1);
      Key("file", s, d, n);
      d := d + KeyForm("file");
      MapHeader(1, s, d, n);
      d := d + MapForm(1);
      Key("path-relative", s, d, n);
      d := d + KeyForm("path-relative");
      SlashedPath(relative, s, d, n);
      Outside(start, done, ObjectForm(relative), total);
    }

    method Stratum(role: string, index: u32, path: Option<Bytes>, ghost start: Bytes, ghost done: Bytes,
                   ghost total: nat)
      requires At(start, done, total) && |role| < 64 && (path.Some? ==> IsPath(path.value))
      requires |done| + |StratumForm(role, index, path)| <= total
      modifies this`len, this`text, out
      ensures At(start, done + StratumForm(role, index, path), total)
    {
      hide At;
      hide KeyForm;
      hide U32Form;
      hide StrBytes;
      hide MapForm;
      FormSize();
      Inside(start, done, total);
      ghost var s, n := start + done, total - |done|;
      Key(role, s, [], n);
      ghost var d := KeyForm(role);
      assert [] + d == d;
      MapHeader(1, s, d, n);
      d := d + MapForm(1);
      Key("stratum", s, d, n);
      d := d + KeyForm("stratum");
      MapHeader(if path.Some? then 2 else 1, s, d, n);
      d := d + MapForm(if path.Some? then 2 else 1);
      Key("index", s, d, n);
      d := d + KeyForm("index");
      Unsigned(index, s, d, n);
      d := d + U32Form(index);
      assert d + [] == d;
      if path.Some? {
        Key("path", s, d, n);
        Str(path.value, s, d + KeyForm("path"), n);
        assert d + KeyForm("path") + StrBytes(path.value) == d + (KeyForm("path") + StrBytes(path.value));
      }
      Outside(start, done, StratumForm(role, index, path), total);
    }

    method CopyUpOutcomeFields(result: i32, ghost start: Bytes, ghost done: Bytes, ghost total: nat)
      requires At(start, done, total) && |done| + |CopyUpOutcome(result)| <= total
      modifies this`len, this`text, out
      ensures At(start, done + CopyUpOutcome(result), total)
    {
      hide At;
      hide KeyForm;
      hide S32Form;
      hide MapForm;
      hide BoolForm;
      FormSize();
      Inside(start, done, total);
      ghost var s, n := start + done, total - |done|;
      var success := result >= 0;
      Key("outcome", s, [], n);
      ghost var d := KeyForm("outcome");
      assert [] + d == d;
      MapHeader(if success then 1 else 2, s, d, n);
      d := d + MapForm(if success then 1 else 2);
      Key("success", s, d, n);
      d := d + KeyForm("success");
      Bool(success, s, d, n);
      d := d + BoolForm(success);
      assert d + [] == d;
      if !success {
        Key("errno", s, d, n);
        Signed(result, s, d + KeyForm("errno"), n);
        assert d + KeyForm("errno") + S32Form(result) == d + (KeyForm("errno") + S32Form(result));
      }
      Outside(start, done, CopyUpOutcome(result), total);
    }

    method RefusalOutcomeFields(c: Refusal, ghost start: Bytes, ghost done: Bytes, ghost total: nat)
      requires At(start, done, total) && |done| + |RefusalOutcome(c)| <= total
      modifies this`len, this`text, out
      ensures At(start, done + RefusalOutcome(c), total)
    {
      hide At;
      hide KeyForm;
      hide S32Form;
      hide MapForm;
      hide BoolForm;
      FormSize();
      Inside(start, done, total);
      ghost var s, n := start + done, total - |done|;
      Key("outcome", s, [], n);
      ghost var d := KeyForm("outcome");
      assert [] + d == d;
      MapHeader(2, s, d, n);
      d := d + MapForm(2);
      Key("errno", s, d, n);
      d := d + KeyForm("errno");
      Signed(c.result, s, d, n);
      d := d + S32Form(c.result);
      Key("deferred", s, d, n);
      d := d + KeyForm("deferred");
      Bool(c.deferred, s, d, n);
      Outside(start, done, RefusalOutcome(c), total);
    }

    method OperationFields(operation: Bytes, ghost start: Bytes, ghost done: Bytes, ghost total: nat)
      requires At(start, done, total) && |operation| < 64 && |done| + |OperationForm(operation)| <= total
      modifies this`len, this`text, out
      ensures At(start, done + OperationForm(operation), total)
    {
      hide At;
      hide KeyForm;
      hide StrBytes;
      hide MapForm;
      FormSize();
      Inside(start, done, total);
      ghost var s, n := start + done, total - |done|;
      Key("operation", s, [], n);
      ghost var d := KeyForm("operation");
      assert [] + d == d;
      MapHeader(1, s, d, n);
      d := d + MapForm(1);
      Key("name", s, d, n);
      d := d + KeyForm("name");
      Str(operation, s, d, n);
      Outside(start, done, OperationForm(operation), total);
    }

    // ----- whole records -----

    method CopyUpFields(c: CopyUpRecord, reduced: bool)
      requires Valid() && text == [] && CopyUpFits(c) && Room(|CopyUpBytes(c, reduced)|)
      modifies this`len, this`text, out
      ensures Valid() && text == CopyUpBytes(c, reduced)
    {
      hide CopyUpBytes;
      assert At([], [], |CopyUpBytes(c, reduced)|);
      CopyUpParts(c, reduced, |CopyUpBytes(c, reduced)|);
      assert [] + CopyUpBytes(c, reduced) == CopyUpBytes(c, reduced);
    }

    method CopyUpParts(c: CopyUpRecord, reduced: bool, ghost n: nat)
      requires CopyUpFits(c) && n == |CopyUpBytes(c, reduced)| && At([], [], n)
      modifies this`len, this`text, out
      ensures At([], CopyUpBytes(c, reduced), n)
    {
      hide At;
      hide ObjectForm;
      hide StratumForm;
      hide CopyUpOutcome;
      hide MapForm;
      FormSize();
      ghost var s: Bytes := [];
      var size := if reduced then 3 else 4;
      MapHeader(size, s, [], n);
      ghost var d := MapForm(size);
      assert [] + d == d;
      assert d + [] == d;
      if !reduced {
        RelativePathObject(c.relative, s, d, n);
      }
      d := d + if reduced then [] else ObjectForm(c.relative);
      Stratum("source", c.providerIndex, Kept(c.provider, reduced), s, d, n);
      d := d + StratumForm("source", c.providerIndex, Kept(c.provider, reduced));
      Stratum("destination", c.createIndex, Kept(c.create, reduced), s, d, n);
      d := d + StratumForm("destination", c.createIndex, Kept(c.create, reduced));
      CopyUpOutcomeFields(c.result, s, d, n);
    }

    method RefusalFields(c: Refusal, reduced: bool)
      requires Valid() && text == [] && RefusalFits(c) && Room(|RefusalBytes(c, reduced)|)
      modifies this`len, this`text, out
      ensures Valid() && text == RefusalBytes(c, reduced)
    {
      hide RefusalBytes;
      assert At([], [], |RefusalBytes(c, reduced)|);
      RefusalParts(c, reduced, |RefusalBytes(c, reduced)|);
      assert [] + RefusalBytes(c, reduced) == RefusalBytes(c, reduced);
    }

    method RefusalParts(c: Refusal, reduced: bool, ghost n: nat)
      requires RefusalFits(c) && n == |RefusalBytes(c, reduced)| && At([], [], n)
      modifies this`len, this`text, out
      ensures At([], RefusalBytes(c, reduced), n)
    {
      hide At;
      hide ObjectForm;
      hide StratumForm;
      hide OperationForm;
      hide RefusalOutcome;
      hide MapForm;
      FormSize();
      ghost var s: Bytes := [];
      var size := (if c.provider.Some? then 3 else 2) + (if reduced then 0 else 1);
      MapHeader(size, s, [], n);
      ghost var d := MapForm(size);
      assert [] + d == d;
      assert d + [] == d;
      if !reduced {
        RelativePathObject(c.relative, s, d, n);
      }
      d := d + if reduced then [] else ObjectForm(c.relative);
      OperationFields(c.operation, s, d, n);
      d := d + OperationForm(c.operation);
      assert d + [] == d;
      if c.provider.Some? {
        Stratum("source", c.index, Kept(c.provider.value, reduced), s, d, n);
      }
      d := d + RefusalSource(c, reduced);
      RefusalOutcomeFields(c, s, d, n);
    }
  }

  lemma FormSize()
    ensures forall n :: 0 <= n <= 15 ==> |MapForm(n)| == 1
    ensures forall b :: |BoolForm(b)| == 1
  {}

  // ----- the emitters -----

  /** The bytes emitted for a copy-up: the full record if the buffer it measured
      could be allocated, otherwise the reduced one; none only when a path is too
      long. */
  method AuditCopyUp(c: CopyUpRecord, allocates: bool) returns (emitted: Option<Bytes>)
    ensures emitted.Some? <==> CopyUpFits(c)
    ensures emitted.Some? ==> emitted.value == CopyUpBytes(c, !allocates)
  {
    hide CopyUpBytes;
    if !CopyUpFits(c) {
      return None;
    }
    var mp := new Mp();
    mp.CopyUpFields(c, false);
    if allocates {
      var buffer := new byte[mp.len];
      mp.Rewind(buffer);
      mp.CopyUpFields(c, false);
      return Some(buffer[..mp.len]);
    }
    var measure := new Mp();
    measure.CopyUpFields(c, true);
    ReducedCopyUpFits(c);
    var stack := new byte[REDUCED_MAX];
    measure.Rewind(stack);
    measure.CopyUpFields(c, true);
    return Some(stack[..measure.len]);
  }

  lemma RefusalIsNotEmpty(c: Refusal, reduced: bool)
    requires RefusalFits(c)
    ensures |RefusalBytes(c, reduced)| > 0
  {
    hide ObjectForm;
    hide OperationForm;
    hide RefusalSource;
    hide RefusalOutcome;
  }

  /** Encodes or, without a buffer, measures a refusal; zero means that it cannot be
      encoded or does not fit. */
  method RefusalPayload(buffer: array?<byte>, c: Refusal, reduced: bool) returns (n: nat)
    modifies buffer
    ensures
      var fits := RefusalFits(c) && c.result < 0 && (buffer != null ==> |RefusalBytes(c, reduced)| <= buffer.Length);
      n == if fits then |RefusalBytes(c, reduced)| else 0
    ensures buffer != null && n > 0 ==> n <= buffer.Length && buffer[..n] == RefusalBytes(c, reduced)
    ensures RefusalFits(c) ==> |RefusalBytes(c, reduced)| > 0
  {
    hide RefusalBytes;
    if RefusalFits(c) {
      RefusalIsNotEmpty(c, reduced);
    }
    if !RefusalFits(c) || c.result >= 0 {
      return 0;
    }
    var mp := new Mp();
    mp.RefusalFields(c, reduced);
    if buffer == null {
      return mp.len;
    }
    if buffer.Length < mp.len {
      return 0;
    }
    mp.Rewind(buffer);
    mp.RefusalFields(c, reduced);
    return mp.len;
  }

  /** A refusal that can be encoded is never lost. */
  method AuditRefused(c: Refusal, allocates: bool) returns (emitted: Option<Bytes>)
    ensures emitted.Some? <==> RefusalFits(c) && c.result < 0
    ensures emitted.Some? ==> emitted.value == RefusalBytes(c, !allocates)
  {
    hide RefusalBytes;
    var size := RefusalPayload(null, c, false);
    if size == 0 {
      return None;
    }
    if allocates {
      var payload := new byte[size];
      var n := RefusalPayload(payload, c, false);
      return Some(payload[..n]);
    }
    ReducedRefusalFits(c);
    var stack := new byte[REDUCED_MAX];
    var n := RefusalPayload(stack, c, true);
    return Some(stack[..n]);
  }

  lemma OneByte(n: nat)
    requires n < 0x100
    ensures BigEndian(n, 1) == [n as byte]
  {
    assert BigEndian(n / 256, 0) == [];
  }

  lemma TwoBytes(n: nat)
    requires n < 0x1_0000
    ensures BigEndian(n, 2) == [(n / 0x100) as byte, (n % 0x100) as byte]
  {
    OneByte(n / 0x100);
  }

  lemma FourBytes(n: nat)
    requires n < U32
    ensures BigEndian(n, 4) ==
            [(n / 0x100_0000) as byte, (n / 0x1_0000 % 0x100) as byte, (n / 0x100 % 0x100) as byte, (n % 0x100) as byte]
  {
    TwoBytes(n / 0x1_0000);
    var m := n / 0x100;
    assert m / 0x100 == n / 0x1_0000;
    assert BigEndian(m, 3) == BigEndian(n / 0x1_0000, 2) + [(m % 0x100) as byte];
    assert n / 0x1_0000 / 0x100 == n / 0x100_0000;
  }
}
