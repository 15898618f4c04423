/** The audit payload builders: for every combination of optional fields, the bytes
    written decode to exactly the record described here, map by map. */
module Payloads {
  import opened Widths
  import opened MsgPack
  import opened PayloadWriter

  // ----- what the records are about -----

  datatype Group = Group(sid: Bytes, attributes: u32)

  datatype TokenType = Primary | Impersonation

  datatype Level = LevelAnonymous | LevelIdentification | LevelImpersonation | LevelDelegation

  datatype Token = Token(sid: Bytes, groups: seq<Group>, integrity: u32, kind: TokenType, level: Level)

  datatype Ids = Ids(token: u64, auth: Option<u64>, uid: u32)

  datatype Pip = Pip(kind: u32, trust: u32)

  datatype Process = Process(pid: u64, name: Bytes, executable: Bytes)

  function LevelValue(level: Level): u64 {
    match level
    case LevelAnonymous => 0
    case LevelIdentification => 1
    case LevelImpersonation => 2
    case LevelDelegation => 3
  }

  /** A primary token reports level 0; its type tells it from an anonymous one. */
  function ReportedLevel(kind: TokenType, level: Level): u64 {
    if kind.Primary? then 0 else LevelValue(level)
  }

  function TypeName(kind: TokenType): Bytes {
    if kind.Primary? then B("primary") else B("impersonation")
  }

  /** An optional field is one pair or none. */
  function OptInt(key: string, n: Option<u64>): seq<Pair> {
    if n.Some? then [Pair(B(key), Int(n.value))] else []
  }

  function OptStr(key: string, s: Option<Bytes>): seq<Pair> {
    if s.Some? then [Pair(B(key), Str(s.value))] else []
  }

  function OptBin(key: string, s: Option<Bytes>): seq<Pair> {
    if s.Some? then [Pair(B(key), Bin(s.value))] else []
  }

  function OptMap(key: string, ps: Option<seq<Pair>>): seq<Pair> {
    if ps.Some? then [Pair(B(key), Map(ps.value))] else []
  }

  function One<T>(present: bool, x: T): Option<T> {
    if present then Some(x) else None
  }

  function Count<T>(x: Option<T>): nat {
    if x.Some? then 1 else 0
  }

  predicate OptFits(s: Option<Bytes>) {
    s.Some? ==> |s.value| < U32
  }

  // ----- the records as values -----

  function ProcessValue(p: Process): Value {
    Map([Pair(B("pid"), Int(p.pid)), Pair(B("name"), Str(p.name))] +
        OptStr("executable", One(p.executable != [], p.executable)))
  }

  function EmitterValue(p: Process): Value {
    Map([Pair(B("process"), ProcessValue(p))])
  }

  function EmitterThreadValue(p: Process, tid: u64): Value {
    Map([Pair(B("process"), ProcessValue(p)), Pair(B("thread"), Map([Pair(B("tid"), Int(tid))]))])
  }

  function Sids(groups: seq<Group>): seq<Value> {
    seq(|groups|, i requires 0 <= i < |groups| => Bin(groups[i].sid))
  }

  function Attributes(groups: seq<Group>): seq<Value> {
    seq(|groups|, i requires 0 <= i < |groups| => Int(groups[i].attributes))
  }

  function TokenId(ids: Option<Ids>): Option<u64> {
    if ids.Some? then Some(ids.value.token) else None
  }

  function AuthId(ids: Option<Ids>): Option<u64> {
    if ids.Some? then ids.value.auth else None
  }

  function Uid(ids: Option<Ids>): Option<u64> {
    if ids.Some? then Some(ids.value.uid) else None
  }

  function TokenPairs(t: Token, ids: Option<Ids>): seq<Pair> {
    [Pair(B("sid"), Bin(t.sid))] +
    [Pair(B("groups"), Arr(Sids(t.groups)))] +
    [Pair(B("group-attributes"), Arr(Attributes(t.groups)))] +
    [Pair(B("integrity"), Int(t.integrity))] +
    OptInt("id", TokenId(ids)) +
    OptInt("auth-id", AuthId(ids)) +
    [Pair(B("type"), Str(TypeName(t.kind)))] +
    [Pair(B("impersonation"), Int(ReportedLevel(t.kind, t.level)))] +
    OptInt("uid", Uid(ids))
  }

  function SubjectValue(t: Token, ids: Option<Ids>, pip: Pip): Value {
    Map([Pair(B("token"), Map(TokenPairs(t, ids))),
         Pair(B("pip"), Map([Pair(B("type"), Int(pip.kind)), Pair(B("trust"), Int(pip.trust))]))])
  }

  predicate GroupsFit(groups: seq<Group>) {
    |groups| < U32 && forall i :: 0 <= i < |groups| ==> |groups[i].sid| < U32
  }

  // ----- optional fields -----

  method KeyOptU64(w: MsgpackWriter, key: string, n: Option<u64>, ghost start: seq<Frame>, ghost ps: seq<Pair>)
    returns (r: Outcome)
    requires w.Valid() && Grew(start, w.frames, ps) && |key| < U32
    modifies w
    ensures r.Fine? && w.Valid() && Grew(start, w.frames, ps + OptInt(key, n))
  {
    hide B;
    hide Grew;
    hide MsgpackWriter.Valid;
    assert ps + [] == ps;
    if n.Some? {
      :- w.KeyU64(B(key), n.value, start, ps);
    }
    return Fine;
  }

  method KeyOptStr(w: MsgpackWriter, key: string, s: Option<Bytes>, ghost start: seq<Frame>, ghost ps: seq<Pair>)
    returns (r: Outcome)
    requires w.Valid() && Grew(start, w.frames, ps) && |key| < U32
    modifies w
    ensures r.Fine? <==> OptFits(s)
    ensures r.Fine? ==> w.Valid() && Grew(start, w.frames, ps + OptStr(key, s))
  {
    hide B;
    hide Grew;
    hide MsgpackWriter.Valid;
    assert ps + [] == ps;
    if s.Some? {
      :- w.KeyStr(B(key), s.value, start, ps);
    }
    return Fine;
  }

  method KeyOptBin(w: MsgpackWriter, key: string, s: Option<Bytes>, ghost start: seq<Frame>, ghost ps: seq<Pair>)
    returns (r: Outcome)
    requires w.Valid() && Grew(start, w.frames, ps) && |key| < U32
    modifies w
    ensures r.Fine? <==> OptFits(s)
    ensures r.Fine? ==> w.Valid() && Grew(start, w.frames, ps + OptBin(key, s))
  {
    hide B;
    hide Grew;
    hide MsgpackWriter.Valid;
    assert ps + [] == ps;
    if s.Some? {
      :- w.KeyBin(B(key), s.value, start, ps);
    }
    return Fine;
  }

  // ----- emitter -----

  method WriteProcess(w: MsgpackWriter, p: Process, ghost start: seq<Frame>, ghost ps: seq<Pair>) returns (r: Outcome)
    requires w.Valid() && Grew(start, w.frames, ps)
    modifies w
    ensures r.Fine? <==> |p.name| < U32 && |p.executable| < U32
    ensures r.Fine? ==> w.Valid() && Grew(start, w.frames, ps + [Pair(B("process"), ProcessValue(p))])
  {
    hide B;
    hide Grew;
    hide MsgpackWriter.Valid;
    var known := p.executable != [];
    ghost var outer := w.frames;
    GrewSome(start, outer, ps);
    var n := 2 + if known then 1 else 0;
    :- w.OpenMap(B("process"), n);
    ghost var top := Opened(outer, B("process"), n);
    ghost var qs := [];
    :- w.KeyU64(B("pid"), p.pid, top, qs);
    qs := qs + [Pair(B("pid"), Int(p.pid))];
    :- w.KeyStr(B("name"), p.name, top, qs);
    qs := qs + [Pair(B("name"), Str(p.name))];
    :- KeyOptStr(w, "executable", One(known, p.executable), top, qs);
    qs := qs + OptStr("executable", One(known, p.executable));
    assert Map(qs) == ProcessValue(p);
    w.CloseMap(start, ps, outer, B("process"), n, qs);
    return Fine;
  }

  lemma GrewSome(start: seq<Frame>, fs: seq<Frame>, ps: seq<Pair>)
    requires Grew(start, fs, ps)
    ensures fs != []
  {}

  method EncodeEmitterMap(p: Process) returns (r: Outcome, out: Bytes)
    ensures r.Fine? <==> |p.name| < U32 && |p.executable| < U32
    ensures r.Fine? ==> Encodes(out, EmitterValue(p))
  {
    hide B;
    hide Grew;
    hide MsgpackWriter.Valid;
    hide Encodes;
    hide ProcessValue;
    out := [];
    var w := new MsgpackWriter();
    :- w.OpenRoot(1);
    ghost var root := [Frame([], 1, [], [])];
    :- WriteProcess(w, p, root, []);
    ghost var ps := [Pair(B("process"), ProcessValue(p))];
    assert [] + ps == ps;
    out := w.IntoVec(1, ps);
    return Fine, out;
  }

  method EncodeEmitterThreadMap(p: Process, tid: u64) returns (r: Outcome, out: Bytes)
    ensures r.Fine? <==> |p.name| < U32 && |p.executable| < U32
    ensures r.Fine? ==> Encodes(out, EmitterThreadValue(p, tid))
  {
    hide B;
    hide Grew;
    hide MsgpackWriter.Valid;
    hide Encodes;
    hide ProcessValue;
    out := [];
    var w := new MsgpackWriter();
    :- w.OpenRoot(2);
    ghost var root, ps := [Frame([], 2, [], [])], [];
    :- WriteProcess(w, p, root, ps);
    ps := ps + [Pair(B("process"), ProcessValue(p))];
    ghost var outer := w.frames;
    GrewSome(root, outer, ps);
    :- w.OpenMap(B("thread"), 1);
    :- w.KeyU64(B("tid"), tid, Opened(outer, B("thread"), 1), []);
    ghost var inner := [Pair(B("tid"), Int(tid))];
    assert [] + inner == inner;
    w.CloseMap(root, ps, outer, B("thread"), 1, inner);
    ps := ps + [Pair(B("thread"), Map(inner))];
    assert Map(ps) == EmitterThreadValue(p, tid);
    out := w.IntoVec(2, ps);
    return Fine, out;
  }

  // ----- subject -----

  lemma {:induction false} EncodeAllAppend(xs: seq<Value>, x: Value)
    requires forall i :: 0 <= i < |xs| ==> Encodable(xs[i])
    requires Encodable(x)
    ensures EncodeAll(xs + [x]) == EncodeAll(xs) + Encode(x)
  {
    hide Encode;
    if xs == [] {
      assert xs + [x] == [x] && [x][1..] == [];
    } else {
      assert (xs + [x])[1..] == xs[1..] + [x];
      EncodeAllAppend(xs[1..], x);
    }
  }

  /** The elements written so far, and one more. */
  lemma NextItem(xs: seq<Value>, i: nat)
    requires i < |xs| && forall j :: 0 <= j < |xs| ==> Encodable(xs[j])
    ensures EncodeAll(xs[..i + 1]) == EncodeAll(xs[..i]) + Encode(xs[i])
  {
    hide Encode;
    assert xs[..i + 1] == xs[..i] + [xs[i]];
    EncodeAllAppend(xs[..i], xs[i]);
  }

  /** An array header and its elements are one value. */
  lemma ArrayEncodes(xs: seq<Value>)
    requires |xs| < U32 && forall j :: 0 <= j < |xs| ==> Encodable(xs[j])
    ensures Encodes(ArrayHead(|xs|) + EncodeAll(xs), Arr(xs))
  {
    hide Encodes;
    EncodeEncodes(Arr(xs));
  }

  method WriteSids(w: MsgpackWriter, groups: seq<Group>, ghost start: seq<Frame>, ghost ps: seq<Pair>)
    returns (r: Outcome)
    requires w.Valid() && Grew(start, w.frames, ps)
    modifies w
    ensures r.Fine? <==> GroupsFit(groups)
    ensures r.Fine? ==> w.Valid() && Grew(start, w.frames, ps + [Pair(B("groups"), Arr(Sids(groups)))])
  {
    hide B;
    hide Grew;
    hide Encode;
    hide ArrayHead;
    hide StrBytes;
    hide Render;
    hide FramesFit;
    hide Encodes;
    ghost var xs := Sids(groups);
    ghost var base := w.bytes;
    :- w.WriteStr(B("groups"));
    :- w.WriteArrayLen(|groups|);
    for i := 0 to |groups|
      invariant w.frames == old(w.frames)
      invariant |groups| < U32 && forall j :: 0 <= j < i ==> |groups[j].sid| < U32
      invariant forall j :: 0 <= j < i ==> Encodable(xs[j])
      invariant w.bytes == base + StrBytes(B("groups")) + (ArrayHead(|groups|) + EncodeAll(xs[..i]))
    {
      :- w.WriteBin(groups[i].sid);
      assert xs[..i + 1][..i] == xs[..i];
      NextItem(xs[..i + 1], i);
      assert xs[..i + 1][..i + 1] == xs[..i + 1];
    }
    assert xs[..|groups|] == xs;
    ArrayEncodes(xs);
    w.Record(B("groups"), Arr(xs), ArrayHead(|groups|) + EncodeAll(xs), start, ps);
    return Fine;
  }

  method WriteAttributes(w: MsgpackWriter, groups: seq<Group>, ghost start: seq<Frame>, ghost ps: seq<Pair>)
    returns (r: Outcome)
    requires w.Valid() && Grew(start, w.frames, ps)
    modifies w
    ensures r.Fine? <==> |groups| < U32
    ensures r.Fine? ==> w.Valid() && Grew(start, w.frames, ps + [Pair(B("group-attributes"), Arr(Attributes(groups)))])
  {
    hide B;
    hide Grew;
    hide Encode;
    hide ArrayHead;
    hide StrBytes;
    hide Render;
    hide FramesFit;
    hide Encodes;
    ghost var xs := Attributes(groups);
    ghost var base := w.bytes;
    :- w.WriteStr(B("group-attributes"));
    :- w.WriteArrayLen(|groups|);
    for i := 0 to |groups|
      invariant w.frames == old(w.frames)
      invariant w.bytes == base + StrBytes(B("group-attributes")) + (ArrayHead(|groups|) + EncodeAll(xs[..i]))
    {
      w.WriteU64(groups[i].attributes);
      NextItem(xs, i);
    }
    assert xs[..|groups|] == xs;
    ArrayEncodes(xs);
    w.Record(B("group-attributes"), Arr(xs), ArrayHead(|groups|) + EncodeAll(xs), start, ps);
    return Fine;
  }

  method WriteToken(w: MsgpackWriter, t: Token, ids: Option<Ids>, ghost start: seq<Frame>, ghost ps: seq<Pair>)
    returns (r: Outcome)
    requires w.Valid() && Grew(start, w.frames, ps)
    modifies w
    ensures r.Fine? <==> |t.sid| < U32 && GroupsFit(t.groups)
    ensures r.Fine? ==> w.Valid() && Grew(start, w.frames, ps + [Pair(B("token"), Map(TokenPairs(t, ids)))])
  {
    hide B;
    hide Grew;
    hide MsgpackWriter.Valid;
    hide Sids;
    hide Attributes;
    hide GroupsFit;
    GroupsFitLength(t.groups);
    ghost var outer := w.frames;
    GrewSome(start, outer, ps);
    var idFields := if ids.Some? then 2 + (if ids.value.auth.Some? then 1 else 0) else 0;
    var n := 6 + idFields;
    :- w.OpenMap(B("token"), n);
    ghost var top := Opened(outer, B("token"), n);
    :- w.KeyBin(B("sid"), t.sid, top, []);
    ghost var qs := [Pair(B("sid"), Bin(t.sid))];
    assert [] + qs == qs;
    :- WriteSids(w, t.groups, top, qs);
    qs := qs + [Pair(B("groups"), Arr(Sids(t.groups)))];
    :- WriteAttributes(w, t.groups, top, qs);
    qs := qs + [Pair(B("group-attributes"), Arr(Attributes(t.groups)))];
    :- w.KeyU64(B("integrity"), t.integrity, top, qs);
    qs := qs + [Pair(B("integrity"), Int(t.integrity))];
    :- KeyOptU64(w, "id", TokenId(ids), top, qs);
    qs := qs + OptInt("id", TokenId(ids));
    :- KeyOptU64(w, "auth-id", AuthId(ids), top, qs);
    qs := qs + OptInt("auth-id", AuthId(ids));
    :- w.KeyStr(B("type"), TypeName(t.kind), top, qs);
    qs := qs + [Pair(B("type"), Str(TypeName(t.kind)))];
    var level := ReportedLevel(t.kind, t.level);
    :- w.KeyU64(B("impersonation"), level, top, qs);
    qs := qs + [Pair(B("impersonation"), Int(level))];
    :- KeyOptU64(w, "uid", Uid(ids), top, qs);
    qs := qs + OptInt("uid", Uid(ids));
    assert qs == TokenPairs(t, ids);
    w.CloseMap(start, ps, outer, B("token"), n, qs);
    return Fine;
  }

  lemma GroupsFitLength(groups: seq<Group>)
    ensures GroupsFit(groups) ==> |groups| < U32
  {}

  method EncodeSubjectMap(t: Token, ids: Option<Ids>, pip: Pip) returns (r: Outcome, out: Bytes)
    ensures r.Fine? <==> |t.sid| < U32 && GroupsFit(t.groups)
    ensures r.Fine? ==> Encodes(out, SubjectValue(t, ids, pip))
  {
    hide B;
    hide Grew;
    hide MsgpackWriter.Valid;
    hide Encodes;
    hide TokenPairs;
    hide GroupsFit;
    out := [];
    var w := new MsgpackWriter();
    :- w.OpenRoot(2);
    ghost var root, ps := [Frame([], 2, [], [])], [];
    :- WriteToken(w, t, ids, root, ps);
    ps := ps + [Pair(B("token"), Map(TokenPairs(t, ids)))];
    ghost var outer := w.frames;
    GrewSome(root, outer, ps);
    :- w.OpenMap(B("pip"), 2);
    ghost var top, qs := Opened(outer, B("pip"), 2), [];
    :- w.KeyU64(B("type"), pip.kind, top, qs);
    qs := qs + [Pair(B("type"), Int(pip.kind))];
    :- w.KeyU64(B("trust"), pip.trust, top, qs);
    qs := qs + [Pair(B("trust"), Int(pip.trust))];
    assert qs == [Pair(B("type"), Int(pip.kind)), Pair(B("trust"), Int(pip.trust))];
    w.CloseMap(root, ps, outer, B("pip"), 2, qs);
    ps := ps + [Pair(B("pip"), Map(qs))];
    assert Map(ps) == SubjectValue(t, ids, pip);
    out := w.IntoVec(2, ps);
    return Fine, out;
  }
}
