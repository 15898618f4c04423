/** The byte-pushing MessagePack writer of `kmes_payload.rs`.

    Map headers are written before the pairs they announce.  The writer's ghost
    stack records, for every map still open, how many pairs its header announced
    and which have been written; a map can be closed only when the two agree. */
module PayloadWriter {
  import opened Widths
  import opened MsgPack

  datatype Errno = ERANGE | EIO

  datatype Outcome = Fine | Failed(error: Errno) {
    predicate IsFailure() { Failed? }
    function PropagateFailure(): Outcome { this }
  }

  /** An ASCII literal. */
  function B(s: string): (b: Bytes)
    ensures |b| == |s|
  {
    seq(|s|, i requires 0 <= i < |s| => (s[i] as int % 256) as byte)
  }

  /** `b` is an encoding of `v`: whatever follows it, decoding gives `v` and exactly
      what follows. */
  ghost predicate Encodes(b: Bytes, v: Value) {
    forall rest :: Decode(b + rest) == Some(Parsed(v, rest))
  }

  ghost predicate EncodesPairs(b: Bytes, ps: seq<Pair>) {
    forall rest :: DecodePairs(b + rest, |ps|) == Some(Parsed(ps, rest))
  }

  lemma EncodeEncodes(v: Value)
    requires Encodable(v)
    ensures Encodes(Encode(v), v)
  {
    hide Encode;
    hide Decode;
    forall rest ensures Decode(Encode(v) + rest) == Some(Parsed(v, rest)) {
      RoundTrip(v, rest);
    }
  }

  lemma NoPairs()
    ensures EncodesPairs([], [])
  {
    forall rest: Bytes ensures DecodePairs([] + rest, 0) == Some(Parsed([], rest)) {
      assert [] + rest == rest;
    }
  }

  lemma {:induction false} DecodePairsThen(b: Bytes, n: nat, m: nat)
    requires DecodePairs(b, n).Some? && DecodePairs(DecodePairs(b, n).value.rest, m).Some?
    ensures
      var first := DecodePairs(b, n).value;
      var second := DecodePairs(first.rest, m).value;
      DecodePairs(b, n + m) == Some(Parsed(first.value + second.value, second.rest))
    decreases n
  {
    hide Decode;
    if n == 0 {
      var second := DecodePairs(b, m).value;
      assert [] + second.value == second.value;
    } else {
      var k := Decode(b).value;
      var x := Decode(k.rest).value;
      DecodePairsThen(x.rest, n - 1, m);
      var p := [Pair(k.value.s, x.value)];
      var first := DecodePairs(x.rest, n - 1).value;
      var second := DecodePairs(first.rest, m).value;
      assert p + first.value + second.value == p + (first.value + second.value);
    }
  }

  /** One more key and value. */
  lemma PairsAppend(b: Bytes, ps: seq<Pair>, key: Bytes, enc: Bytes, v: Value)
    requires EncodesPairs(b, ps) && |key| < U32 && Encodes(enc, v)
    ensures EncodesPairs(b + StrBytes(key) + enc, ps + [Pair(key, v)])
  {
    hide Decode;
    hide StrBytes;
    forall rest: Bytes
      ensures DecodePairs(b + StrBytes(key) + enc + rest, |ps| + 1) == Some(Parsed(ps + [Pair(key, v)], rest))
    {
      var last := StrBytes(key) + enc + rest;
      assert b + StrBytes(key) + enc + rest == b + last;
      assert DecodePairs(b + last, |ps|) == Some(Parsed(ps, last));
      OnePair(key, enc, v, rest);
      hide DecodePairs;
      DecodePairsThen(b + last, |ps|, 1);
    }
  }

  lemma OnePair(key: Bytes, enc: Bytes, v: Value, rest: Bytes)
    requires |key| < U32 && Encodes(enc, v)
    ensures DecodePairs(StrBytes(key) + enc + rest, 1) == Some(Parsed([Pair(key, v)], rest))
  {
    hide Decode;
    hide StrBytes;
    assert StrBytes(key) + enc + rest == StrBytes(key) + (enc + rest);
    StrRoundTrip(key, enc + rest);
    assert Decode(enc + rest) == Some(Parsed(v, rest));
    assert DecodePairs(rest, 0) == Some(Parsed([], rest));
    assert [Pair(key, v)] + [] == [Pair(key, v)];
  }

  /** A header and exactly the pairs it announces are one map. */
  lemma MapEncodes(b: Bytes, ps: seq<Pair>)
    requires EncodesPairs(b, ps) && |ps| < U32
    ensures Encodes(MapHead(|ps|) + b, Map(ps))
  {
    hide Decode;
    hide MapHead;
    forall rest ensures Decode(MapHead(|ps|) + b + rest) == Some(Parsed(Map(ps), rest)) {
      assert MapHead(|ps|) + b + rest == MapHead(|ps|) + (b + rest);
      MapHeadDecodes(|ps|, b + rest);
      assert DecodePairs(b + rest, |ps|) == Some(Parsed(ps, rest));
    }
  }

  // ----- maps being written -----

  /** A map being written: its key in the map around it, the announced number of
      pairs, the pairs so far and their bytes. */
  datatype Frame = Frame(key: Bytes, announced: nat, pairs: seq<Pair>, raw: Bytes)

  ghost predicate FrameFits(f: Frame) {
    |f.key| < U32 && f.announced < U32 && EncodesPairs(f.raw, f.pairs)
  }

  ghost predicate FramesFit(fs: seq<Frame>) {
    forall i :: 0 <= i < |fs| ==> FrameFits(fs[i])
  }

  function FrameBytes(f: Frame, nested: bool): Bytes
    requires |f.key| < U32 && f.announced < U32
  {
    (if nested then StrBytes(f.key) else []) + MapHead(f.announced) + f.raw
  }

  ghost function Render(fs: seq<Frame>): Bytes
    requires FramesFit(fs)
  {
    if fs == [] then [] else Render(fs[..|fs| - 1]) + FrameBytes(fs[|fs| - 1], |fs| > 1)
  }

  /** The innermost map with one more pair, encoded as `enc`. */
  function Extended(fs: seq<Frame>, key: Bytes, v: Value, enc: Bytes): seq<Frame>
    requires fs != [] && |key| < U32
  {
    var f := fs[|fs| - 1];
    fs[..|fs| - 1] + [f.(pairs := f.pairs + [Pair(key, v)], raw := f.raw + StrBytes(key) + enc)]
  }

  lemma RenderAppend(fs: seq<Frame>, key: Bytes, v: Value, enc: Bytes)
    requires FramesFit(fs) && fs != [] && |key| < U32 && Encodes(enc, v)
    ensures
      var gs := Extended(fs, key, v, enc);
      FramesFit(gs) && Render(gs) == Render(fs) + StrBytes(key) + enc
  {
    hide Encodes;
    hide EncodesPairs;
    hide MapHead;
    hide StrBytes;
    var f := fs[|fs| - 1];
    assert FrameFits(f);
    PairsAppend(f.raw, f.pairs, key, enc, v);
    var gs := Extended(fs, key, v, enc);
    assert gs[..|gs| - 1] == fs[..|fs| - 1];
  }

  function Opened(fs: seq<Frame>, key: Bytes, n: nat): seq<Frame> {
    fs + [Frame(key, n, [], [])]
  }

  lemma RenderOpen(fs: seq<Frame>, key: Bytes, n: nat)
    requires FramesFit(fs) && |key| < U32 && n < U32
    ensures
      var gs := Opened(fs, key, n);
      FramesFit(gs) && Render(gs) == Render(fs) + (if fs == [] then [] else StrBytes(key)) + MapHead(n)
  {
    hide EncodesPairs;
    hide StrBytes;
    hide MapHead;
    var gs := Opened(fs, key, n);
    NoPairs();
    assert gs[..|gs| - 1] == fs;
  }

  predicate Complete(f: Frame) {
    |f.pairs| == f.announced
  }

  /** The innermost map becomes one pair of the map around it. */
  function Closed(fs: seq<Frame>): seq<Frame>
    requires |fs| >= 2 && |fs[|fs| - 1].key| < U32 && fs[|fs| - 1].announced < U32
  {
    var f := fs[|fs| - 1];
    Extended(fs[..|fs| - 1], f.key, Map(f.pairs), MapHead(f.announced) + f.raw)
  }

  lemma RenderClose(fs: seq<Frame>)
    requires FramesFit(fs) && |fs| >= 2 && Complete(fs[|fs| - 1])
    ensures FrameFits(fs[|fs| - 1]) && FramesFit(Closed(fs)) && Render(Closed(fs)) == Render(fs)
  {
    hide Encodes;
    hide EncodesPairs;
    hide MapHead;
    hide StrBytes;
    var f := fs[|fs| - 1];
    assert FrameFits(f);
    var outer := fs[..|fs| - 1];
    assert Render(fs) == Render(outer) + FrameBytes(f, true);
    MapEncodes(f.raw, f.pairs);
    RenderAppend(outer, f.key, Map(f.pairs), MapHead(f.announced) + f.raw);
    hide Render;
    hide FramesFit;
    Regroup(Render(outer), StrBytes(f.key), MapHead(f.announced), f.raw);
  }

  lemma Regroup(a: Bytes, b: Bytes, c: Bytes, d: Bytes)
    ensures a + b + (c + d) == a + (b + c + d)
  {}

  /** Since `start` the innermost map has gained the pairs `ps`, and nothing else. */
  ghost predicate Grew(start: seq<Frame>, fs: seq<Frame>, ps: seq<Pair>) {
    && |fs| == |start| > 0
    && fs[..|fs| - 1] == start[..|fs| - 1]
    && var f, g := start[|fs| - 1], fs[|fs| - 1];
       g.key == f.key && g.announced == f.announced && g.pairs == f.pairs + ps
  }

  lemma GrewBy(start: seq<Frame>, fs: seq<Frame>, ps: seq<Pair>, key: Bytes, v: Value, enc: Bytes)
    requires Grew(start, fs, ps) && |key| < U32
    ensures Grew(start, Extended(fs, key, v, enc), ps + [Pair(key, v)])
  {
    hide StrBytes;
  }

  lemma GrewClosed(start: seq<Frame>, fs: seq<Frame>, ps: seq<Pair>, key: Bytes, n: nat)
    requires start != [] && |key| < U32 && n < U32 && Grew(Opened(start, key, n), fs, ps)
    ensures Grew(start, Closed(fs), [Pair(key, Map(ps))])
  {
    hide StrBytes;
    hide MapHead;
    assert fs[..|fs| - 1] == start;
    assert fs[|fs| - 1].pairs == ps;
  }

  lemma GrewMore(start: seq<Frame>, mid: seq<Frame>, fs: seq<Frame>, ps: seq<Pair>, qs: seq<Pair>)
    requires Grew(start, mid, ps) && Grew(mid, fs, qs)
    ensures Grew(start, fs, ps + qs)
  {
    assert mid[|mid| - 1].pairs + qs == start[|start| - 1].pairs + (ps + qs);
  }

  class MsgpackWriter {
    var bytes: Bytes
    ghost var frames: seq<Frame>

    ghost predicate Valid()
      reads this
    {
      FramesFit(frames) && bytes == Render(frames)
    }

    constructor ()
      ensures Valid() && frames == []
    {
      bytes := [];
      frames := [];
    }

    // ----- the primitive writes -----

    method PushByte(b: byte)
      modifies this`bytes
      ensures bytes == old(bytes) + [b]
    {
      bytes := bytes + [b];
    }

    method Extend(s: Bytes)
      modifies this`bytes
      ensures bytes == old(bytes) + s
    {
      bytes := bytes + s;
    }

    method WriteMapLen(len: nat) returns (r: Outcome)
      modifies this`bytes
      ensures r.Fine? <==> len < U32
      ensures bytes == old(bytes) + if r.Fine? then MapHead(len) else []
    {
      hide BigEndian;
      if len <= 15 {
        PushByte((0x80 + len) as byte);
      } else if len < 0x1_0000 {
        PushByte(0xde);
        Extend(BigEndian(len, 2));
      } else if len < U32 {
        PushByte(0xdf);
        Extend(BigEndian(len, 4));
      } else {
        return Failed(ERANGE);
      }
      return Fine;
    }

    method WriteArrayLen(len: nat) returns (r: Outcome)
      modifies this`bytes
      ensures r.Fine? <==> len < U32
      ensures bytes == old(bytes) + if r.Fine? then ArrayHead(len) else []
    {
      hide BigEndian;
      if len <= 15 {
        PushByte((0x90 + len) as byte);
      } else if len < 0x1_0000 {
        PushByte(0xdc);
        Extend(BigEndian(len, 2));
      } else if len < U32 {
        PushByte(0xdd);
        Extend(BigEndian(len, 4));
      } else {
        return Failed(ERANGE);
      }
      return Fine;
    }

    method WriteStrLen(len: nat) returns (r: Outcome)
      modifies this`bytes
      ensures r.Fine? <==> len < U32
      ensures bytes == old(bytes) + if r.Fine? then StrHead(len) else []
    {
      hide BigEndian;
      if len <= 31 {
        PushByte((0xa0 + len) as byte);
      } else if len < 0x100 {
        PushByte(0xd9);
        Extend(BigEndian(len, 1));
      } else if len < 0x1_0000 {
        PushByte(0xda);
        Extend(BigEndian(len, 2));
      } else if len < U32 {
        PushByte(0xdb);
        Extend(BigEndian(len, 4));
      } else {
        return Failed(ERANGE);
      }
      return Fine;
    }

    method WriteStr(s: Bytes) returns (r: Outcome)
      modifies this`bytes
      ensures r.Fine? <==> |s| < U32
      ensures bytes == old(bytes) + if r.Fine? then StrBytes(s) else []
    {
      hide StrHead;
      :- WriteStrLen(|s|);
      Extend(s);
      return Fine;
    }

    method WriteBinLen(len: nat) returns (r: Outcome)
      modifies this`bytes
      ensures r.Fine? <==> len < U32
      ensures bytes == old(bytes) + if r.Fine? then BinHead(len) else []
    {
      hide BigEndian;
      if len < 0x100 {
        PushByte(0xc4);
        Extend(BigEndian(len, 1));
      } else if len < 0x1_0000 {
        PushByte(0xc5);
        Extend(BigEndian(len, 2));
      } else if len < U32 {
        PushByte(0xc6);
        Extend(BigEndian(len, 4));
      } else {
        return Failed(ERANGE);
      }
      return Fine;
    }

    method WriteBin(s: Bytes) returns (r: Outcome)
      modifies this`bytes
      ensures r.Fine? <==> |s| < U32
      ensures bytes == old(bytes) + if r.Fine? then Encode(Bin(s)) else []
    {
      hide BinHead;
      :- WriteBinLen(|s|);
      Extend(s);
      return Fine;
    }

    method WriteU64(n: nat)
      requires n < U64
      modifies this`bytes
      ensures bytes == old(bytes) + Encode(Int(n))
    {
      hide BigEndian;
      assert Encode(Int(n)) == IntBytes(n);
      hide Encode;
      if n <= 0x7f {
        PushByte(n as byte);
      } else if n < 0x100 {
        PushByte(0xcc);
        Extend(BigEndian(n, 1));
      } else if n < 0x1_0000 {
        PushByte(0xcd);
        Extend(BigEndian(n, 2));
      } else if n < U32 {
        PushByte(0xce);
        Extend(BigEndian(n, 4));
      } else {
        PushByte(0xcf);
        Extend(BigEndian(n, 8));
      }
    }

    method WriteI64(n: int)
      requires -U63 <= n < U63
      modifies this`bytes
      ensures bytes == old(bytes) + Encode(Int(n))
    {
      hide BigEndian;
      assert Encode(Int(n)) == IntBytes(n);
      hide Encode;
      if n >= 0 {
        WriteU64(n);
      } else if n >= -32 {
        PushByte((n % 0x100) as byte);
      } else if n >= -0x80 {
        PushByte(0xd0);
        Extend(BigEndian(n % 0x100, 1));
      } else if n >= -0x8000 {
        PushByte(0xd1);
        Extend(BigEndian(n % 0x1_0000, 2));
      } else if n >= -0x8000_0000 {
        PushByte(0xd2);
        Extend(BigEndian(n % U32, 4));
      } else {
        PushByte(0xd3);
        Extend(BigEndian(n % U64, 8));
      }
    }

    method WriteBool(b: bool)
      modifies this`bytes
      ensures bytes == old(bytes) + Encode(Bool(b))
    {
      PushByte(if b then 0xc3 else 0xc2);
    }

    // ----- a key with its value -----

    /** The pair just written, as the writer's own account records it. */
    ghost method Record(key: Bytes, v: Value, enc: Bytes, start: seq<Frame>, ps: seq<Pair>)
      requires FramesFit(frames) && |key| < U32 && Encodes(enc, v) && Grew(start, frames, ps)
      requires bytes == Render(frames) + StrBytes(key) + enc
      modifies this`frames
      ensures Valid() && Grew(start, frames, ps + [Pair(key, v)])
    {
      RenderAppend(frames, key, v, enc);
      GrewBy(start, frames, ps, key, v, enc);
      frames := Extended(frames, key, v, enc);
    }

    method KeyStr(key: Bytes, s: Bytes, ghost start: seq<Frame>, ghost ps: seq<Pair>) returns (r: Outcome)
      requires Valid() && Grew(start, frames, ps) && |key| < U32
      modifies this
      ensures r.Fine? <==> |s| < U32
      ensures r.Fine? ==> Valid() && Grew(start, frames, ps + [Pair(key, Str(s))])
    {
      hide StrBytes;
      hide Render;
      hide FramesFit;
      hide Encodes;
      hide Grew;
      :- WriteStr(key);
      :- WriteStr(s);
      StrEncodes(s);
      Record(key, Str(s), StrBytes(s), start, ps);
      return Fine;
    }

    method KeyBin(key: Bytes, s: Bytes, ghost start: seq<Frame>, ghost ps: seq<Pair>) returns (r: Outcome)
      requires Valid() && Grew(start, frames, ps) && |key| < U32
      modifies this
      ensures r.Fine? <==> |s| < U32
      ensures r.Fine? ==> Valid() && Grew(start, frames, ps + [Pair(key, Bin(s))])
    {
      hide StrBytes;
      hide Encode;
      hide Render;
      hide FramesFit;
      hide Encodes;
      hide Grew;
      :- WriteStr(key);
      :- WriteBin(s);
      EncodeEncodes(Bin(s));
      Record(key, Bin(s), Encode(Bin(s)), start, ps);
      return Fine;
    }

    method KeyU64(key: Bytes, n: nat, ghost start: seq<Frame>, ghost ps: seq<Pair>) returns (r: Outcome)
      requires Valid() && Grew(start, frames, ps) && |key| < U32 && n < U64
      modifies this
      ensures r.Fine? && Valid() && Grew(start, frames, ps + [Pair(key, Int(n))])
    {
      hide StrBytes;
      hide Encode;
      hide Render;
      hide FramesFit;
      hide Encodes;
      hide Grew;
      :- WriteStr(key);
      WriteU64(n);
      EncodeEncodes(Int(n));
      Record(key, Int(n), Encode(Int(n)), start, ps);
      return Fine;
    }

    method KeyI64(key: Bytes, n: int, ghost start: seq<Frame>, ghost ps: seq<Pair>) returns (r: Outcome)
      requires Valid() && Grew(start, frames, ps) && |key| < U32 && -U63 <= n < U63
      modifies this
      ensures r.Fine? && Valid() && Grew(start, frames, ps + [Pair(key, Int(n))])
    {
      hide StrBytes;
      hide Encode;
      hide Render;
      hide FramesFit;
      hide Encodes;
      hide Grew;
      :- WriteStr(key);
      WriteI64(n);
      EncodeEncodes(Int(n));
      Record(key, Int(n), Encode(Int(n)), start, ps);
      return Fine;
    }

    method KeyBool(key: Bytes, b: bool, ghost start: seq<Frame>, ghost ps: seq<Pair>) returns (r: Outcome)
      requires Valid() && Grew(start, frames, ps) && |key| < U32
      modifies this
      ensures r.Fine? && Valid() && Grew(start, frames, ps + [Pair(key, Bool(b))])
    {
      hide StrBytes;
      hide Encode;
      hide Render;
      hide FramesFit;
      hide Encodes;
      hide Grew;
      :- WriteStr(key);
      WriteBool(b);
      EncodeEncodes(Bool(b));
      Record(key, Bool(b), Encode(Bool(b)), start, ps);
      return Fine;
    }

    /** A key whose value is already encoded. */
    method KeyEncoded(key: Bytes, encoded: Bytes, ghost v: Value, ghost start: seq<Frame>, ghost ps: seq<Pair>)
      returns (r: Outcome)
      requires Valid() && Grew(start, frames, ps) && Encodes(encoded, v)
      modifies this
      ensures r.Fine? <==> |key| < U32
      ensures r.Fine? ==> Valid() && Grew(start, frames, ps + [Pair(key, v)])
    {
      hide StrBytes;
      hide Render;
      hide FramesFit;
      hide Encodes;
      hide Grew;
      :- WriteStr(key);
      Extend(encoded);
      Record(key, v, encoded, start, ps);
      return Fine;
    }

    // ----- maps -----

    method OpenRoot(n: nat) returns (r: Outcome)
      requires Valid() && frames == [] && n < U32
      modifies this
      ensures r.Fine? && Valid() && Grew([Frame([], n, [], [])], frames, [])
    {
      RenderOpen(frames, [], n);
      frames := Opened(frames, [], n);
      hide Render;
      hide FramesFit;
      hide MapHead;
      :- WriteMapLen(n);
      return Fine;
    }

    method OpenMap(key: Bytes, n: nat) returns (r: Outcome)
      requires Valid() && frames != [] && n < U32
      modifies this
      ensures r.Fine? <==> |key| < U32
      ensures r.Fine? ==> Valid() && Grew(Opened(old(frames), key, n), frames, [])
    {
      hide StrBytes;
      hide MapHead;
      if |key| < U32 {
        RenderOpen(frames, key, n);
        frames := Opened(frames, key, n);
      }
      hide Render;
      hide FramesFit;
      :- WriteStr(key);
      :- WriteMapLen(n);
      return Fine;
    }

    /** The innermost map is complete; this writes nothing. */
    ghost method CloseMap(start: seq<Frame>, ps: seq<Pair>, outer: seq<Frame>, key: Bytes, n: nat, inner: seq<Pair>)
      requires Valid() && |key| < U32 && n < U32 && Grew(start, outer, ps)
      requires Grew(Opened(outer, key, n), frames, inner) && |inner| == n
      modifies this`frames
      ensures Valid() && Grew(start, frames, ps + [Pair(key, Map(inner))])
    {
      assert frames[|frames| - 1].pairs == inner;
      RenderClose(frames);
      GrewClosed(outer, frames, inner, key, n);
      frames := Closed(frames);
      GrewMore(start, outer, frames, ps, [Pair(key, Map(inner))]);
    }

    /** The finished record: one map with exactly the pairs its header announced. */
    method IntoVec(ghost n: nat, ghost ps: seq<Pair>) returns (out: Bytes)
      requires Valid() && Grew([Frame([], n, [], [])], frames, ps) && |ps| == n
      ensures Encodes(out, Map(ps))
    {
      assert frames[0].pairs == ps;
      assert frames[..0] == [];
      assert Render([]) == [];
      assert FrameFits(frames[0]);
      MapEncodes(frames[0].raw, frames[0].pairs);
      hide Encodes;
      hide MapHead;
      assert bytes == MapHead(frames[0].announced) + frames[0].raw;
      return bytes;
    }
  }

  lemma StrEncodes(s: Bytes)
    requires |s| < U32
    ensures Encodes(StrBytes(s), Str(s))
  {
    EncodeEncodes(Str(s));
  }
}
