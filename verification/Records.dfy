/** The access-check, handle, impersonation and descriptor records: each builder
    writes one map, and the map decodes to the record's value whatever optional
    fields it has. */
module Records {
  import opened Widths
  import opened MsgPack
  import opened PayloadWriter
  import opened Payloads

  // ----- maps with one field -----

  method KeyNamed(w: MsgpackWriter, key: string, name: string, s: Bytes, ghost start: seq<Frame>, ghost ps: seq<Pair>)
    returns (r: Outcome)
    requires w.Valid() && Grew(start, w.frames, ps) && |key| < U32 && |name| < U32
    modifies w
    ensures r.Fine? <==> |s| < U32
    ensures r.Fine? ==> w.Valid() && Grew(start, w.frames, ps + [Pair(B(key), Map([Pair(B(name), Str(s))]))])
  {
    hide B;
    hide Grew;
    hide MsgpackWriter.Valid;
    ghost var outer := w.frames;
    GrewSome(start, outer, ps);
    :- w.OpenMap(B(key), 1);
    :- w.KeyStr(B(name), s, Opened(outer, B(key), 1), []);
    ghost var qs := [Pair(B(name), Str(s))];
    assert [] + qs == qs;
    w.CloseMap(start, ps, outer, B(key), 1, qs);
    return Fine;
  }

  method KeySid(w: MsgpackWriter, key: string, name: string, s: Bytes, ghost start: seq<Frame>, ghost ps: seq<Pair>)
    returns (r: Outcome)
    requires w.Valid() && Grew(start, w.frames, ps) && |key| < U32 && |name| < U32
    modifies w
    ensures r.Fine? <==> |s| < U32
    ensures r.Fine? ==> w.Valid() && Grew(start, w.frames, ps + [Pair(B(key), Map([Pair(B(name), Bin(s))]))])
  {
    hide B;
    hide Grew;
    hide MsgpackWriter.Valid;
    ghost var outer := w.frames;
    GrewSome(start, outer, ps);
    :- w.OpenMap(B(key), 1);
    :- w.KeyBin(B(name), s, Opened(outer, B(key), 1), []);
    ghost var qs := [Pair(B(name), Bin(s))];
    assert [] + qs == qs;
    w.CloseMap(start, ps, outer, B(key), 1, qs);
    return Fine;
  }

  method KeyNumber(w: MsgpackWriter, key: string, name: string, n: u64, ghost start: seq<Frame>, ghost ps: seq<Pair>)
    returns (r: Outcome)
    requires w.Valid() && Grew(start, w.frames, ps) && |key| < U32 && |name| < U32
    modifies w
    ensures r.Fine? && w.Valid() && Grew(start, w.frames, ps + [Pair(B(key), Map([Pair(B(name), Int(n))]))])
  {
    hide B;
    hide Grew;
    hide MsgpackWriter.Valid;
    ghost var outer := w.frames;
    GrewSome(start, outer, ps);
    :- w.OpenMap(B(key), 1);
    :- w.KeyU64(B(name), n, Opened(outer, B(key), 1), []);
    ghost var qs := [Pair(B(name), Int(n))];
    assert [] + qs == qs;
    w.CloseMap(start, ps, outer, B(key), 1, qs);
    return Fine;
  }

  method KeyFlag(w: MsgpackWriter, key: string, name: string, b: bool, ghost start: seq<Frame>, ghost ps: seq<Pair>)
    returns (r: Outcome)
    requires w.Valid() && Grew(start, w.frames, ps) && |key| < U32 && |name| < U32
    modifies w
    ensures r.Fine? && w.Valid() && Grew(start, w.frames, ps + [Pair(B(key), Map([Pair(B(name), Bool(b))]))])
  {
    hide B;
    hide Grew;
    hide MsgpackWriter.Valid;
    ghost var outer := w.frames;
    GrewSome(start, outer, ps);
    :- w.OpenMap(B(key), 1);
    :- w.KeyBool(B(name), b, Opened(outer, B(key), 1), []);
    ghost var qs := [Pair(B(name), Bool(b))];
    assert [] + qs == qs;
    w.CloseMap(start, ps, outer, B(key), 1, qs);
    return Fine;
  }

  // ----- object -----

  /** What a check was about; the body of an asserted object is the caller's own
      encoded map, copied verbatim. */
  datatype AuditObject =
    | Unknown
    | Kind(kind: Bytes)
    | TokenObject(id: u64, guid: Bytes)
    | Asserted(name: Bytes, body: Option<Bytes>)

  function TokenIdentity(id: u64, guid: Bytes): seq<Pair> {
    [Pair(B("id"), Int(id))] + [Pair(B("guid"), Bin(guid))]
  }

  function ObjectValue(o: AuditObject, body: Value): Option<Value> {
    match o
    case Unknown => None
    case Kind(kind) => Some(Map([Pair(B("kind"), Str(kind))]))
    case TokenObject(id, guid) =>
      Some(Map([Pair(B("kind"), Str(B("token")))] + [Pair(B("token"), Map(TokenIdentity(id, guid)))]))
    case Asserted(kind, b) => Some(Map([Pair(B("kind"), Str(kind))] + if b.Some? then [Pair(kind, body)] else []))
  }

  predicate ObjectFits(o: AuditObject) {
    match o
    case Unknown => true
    case Kind(kind) => |kind| < U32
    case TokenObject(_, guid) => |guid| < U32
    case Asserted(kind, _) => |kind| < U32
  }

  method WriteTokenIdentity(w: MsgpackWriter, id: u64, guid: Bytes, ghost start: seq<Frame>, ghost ps: seq<Pair>)
    returns (r: Outcome)
    requires w.Valid() && Grew(start, w.frames, ps)
    modifies w
    ensures r.Fine? <==> |guid| < U32
    ensures r.Fine? ==> w.Valid() && Grew(start, w.frames, ps + [Pair(B("token"), Map(TokenIdentity(id, guid)))])
  {
    hide B;
    hide Grew;
    hide MsgpackWriter.Valid;
    ghost var outer := w.frames;
    GrewSome(start, outer, ps);
    :- w.OpenMap(B("token"), 2);
    ghost var top := Opened(outer, B("token"), 2);
    :- w.KeyU64(B("id"), id, top, []);
    ghost var qs := [Pair(B("id"), Int(id))];
    assert [] + qs == qs;
    :- w.KeyBin(B("guid"), guid, top, qs);
    w.CloseMap(start, ps, outer, B("token"), 2, TokenIdentity(id, guid));
    return Fine;
  }

  method EncodeObjectMap(o: AuditObject, ghost body: Value) returns (r: Outcome, out: Option<Bytes>)
    requires o.Asserted? && o.body.Some? ==> Encodes(o.body.value, body)
    ensures r.Fine? <==> ObjectFits(o)
    ensures r.Fine? ==> (out.Some? <==> ObjectValue(o, body).Some?)
    ensures r.Fine? && out.Some? ==> Encodes(out.value, ObjectValue(o, body).value)
  {
    hide B;
    hide Grew;
    hide MsgpackWriter.Valid;
    hide Encodes;
    out := None;
    if o.Unknown? {
      return Fine, None;
    }
    var w := new MsgpackWriter();
    var n := if o.TokenObject? || (o.Asserted? && o.body.Some?) then 2 else 1;
    :- w.OpenRoot(n);
    ghost var root := [Frame([], n, [], [])];
    var kind := match o
      case Kind(k) => k
      case TokenObject(_, _) => B("token")
      case Asserted(k, _) => k;
    :- w.KeyStr(B("kind"), kind, root, []);
    ghost var ps := [Pair(B("kind"), Str(kind))];
    assert [] + ps == ps;
    if o.TokenObject? {
      :- WriteTokenIdentity(w, o.id, o.guid, root, ps);
      ps := ps + [Pair(B("token"), Map(TokenIdentity(o.id, o.guid)))];
    } else if o.Asserted? && o.body.Some? {
      :- w.KeyEncoded(kind, o.body.value, body, root, ps);
      ps := ps + [Pair(kind, body)];
    }
    assert Map(ps) == ObjectValue(o, body).value;
    var bytes := w.IntoVec(n, ps);
    return Fine, Some(bytes);
  }

  // ----- the maps every access-check record shares -----

  datatype CheckMaps = CheckMaps(
    subject: Bytes,
    emitter: Bytes,
    object_: Option<Bytes>,
    asserted: bool,
    deniedIntegrity: u32,
    deniedTrust: u32)

  datatype CheckValues = CheckValues(subject: Value, emitter: Value, object_: Option<Value>)

  ghost predicate MapsEncode(m: CheckMaps, v: CheckValues) {
    && Encodes(m.subject, v.subject)
    && Encodes(m.emitter, v.emitter)
    && (m.object_.Some? <==> v.object_.Some?)
    && (m.object_.Some? ==> Encodes(m.object_.value, v.object_.value))
  }

  function CommonLen(m: CheckMaps): nat {
    2 + Count(m.object_) + if m.asserted then 1 else 0
  }

  function OptValue(key: string, v: Option<Value>): seq<Pair> {
    if v.Some? then [Pair(B(key), v.value)] else []
  }

  function HeadPairs(v: CheckValues): seq<Pair> {
    [Pair(B("subject"), v.subject)] + [Pair(B("emitter"), v.emitter)] + OptValue("object", v.object_)
  }

  function TailPairs(asserted: bool): seq<Pair> {
    if asserted then [Pair(B("fields"), Map([Pair(B("attestation"), Map([Pair(B("userspace"), Bool(true))]))]))] else []
  }

  method WriteHead(w: MsgpackWriter, m: CheckMaps, ghost v: CheckValues, ghost start: seq<Frame>) returns (r: Outcome)
    requires w.Valid() && Grew(start, w.frames, []) && MapsEncode(m, v)
    modifies w
    ensures r.Fine? && w.Valid() && Grew(start, w.frames, HeadPairs(v))
  {
    hide B;
    hide Grew;
    hide MsgpackWriter.Valid;
    hide Encodes;
    :- w.KeyEncoded(B("subject"), m.subject, v.subject, start, []);
    ghost var ps := [Pair(B("subject"), v.subject)];
    assert [] + ps == ps;
    :- w.KeyEncoded(B("emitter"), m.emitter, v.emitter, start, ps);
    ps := ps + [Pair(B("emitter"), v.emitter)];
    assert ps + [] == ps;
    if m.object_.Some? {
      :- w.KeyEncoded(B("object"), m.object_.value, v.object_.value, start, ps);
    }
    return Fine;
  }

  method WriteTail(w: MsgpackWriter, asserted: bool, ghost start: seq<Frame>, ghost ps: seq<Pair>) returns (r: Outcome)
    requires w.Valid() && Grew(start, w.frames, ps)
    modifies w
    ensures r.Fine? && w.Valid() && Grew(start, w.frames, ps + TailPairs(asserted))
  {
    hide B;
    hide Grew;
    hide MsgpackWriter.Valid;
    assert ps + [] == ps;
    if asserted {
      ghost var outer := w.frames;
      GrewSome(start, outer, ps);
      :- w.OpenMap(B("fields"), 1);
      :- KeyFlag(w, "attestation", "userspace", true, Opened(outer, B("fields"), 1), []);
      ghost var qs := [Pair(B("attestation"), Map([Pair(B("userspace"), Bool(true))]))];
      assert [] + qs == qs;
      w.CloseMap(start, ps, outer, B("fields"), 1, qs);
    }
    return Fine;
  }

  // ----- kacs.audit.access.checked -----

  datatype AuditEvent = AuditEvent(requested: u32, granted: u32, success: bool, policyForced: bool, ace: Option<Bytes>)

  function NonZero(n: u32): Option<u64> {
    if n != 0 then Some(n) else None
  }

  function AccessPairs(e: AuditEvent, m: CheckMaps): seq<Pair> {
    [Pair(B("requested"), Int(e.requested))] + [Pair(B("granted"), Int(e.granted))] +
    OptInt("denied-integrity", NonZero(m.deniedIntegrity)) + OptInt("denied-trust", NonZero(m.deniedTrust))
  }

  predicate FromSacl(e: AuditEvent) {
    e.ace.Some? && !e.policyForced
  }

  function TriggerPairs(e: AuditEvent): seq<Pair> {
    if FromSacl(e) then [Pair(B("kind"), Str(B("sacl")))] + [Pair(B("ace"), Bin(e.ace.value))]
    else [Pair(B("kind"), Str(B("policy")))]
  }

  function AccessCheckedValue(e: AuditEvent, m: CheckMaps, v: CheckValues): Value {
    Map(HeadPairs(v) +
        [Pair(B("access"), Map(AccessPairs(e, m)))] +
        [Pair(B("outcome"), Map([Pair(B("success"), Bool(e.success))]))] +
        [Pair(B("trigger"), Map(TriggerPairs(e)))] +
        TailPairs(m.asserted))
  }

  method WriteAccess(w: MsgpackWriter, e: AuditEvent, m: CheckMaps, ghost start: seq<Frame>, ghost ps: seq<Pair>)
    returns (r: Outcome)
    requires w.Valid() && Grew(start, w.frames, ps)
    modifies w
    ensures r.Fine? && w.Valid() && Grew(start, w.frames, ps + [Pair(B("access"), Map(AccessPairs(e, m)))])
  {
    hide B;
    hide Grew;
    hide MsgpackWriter.Valid;
    ghost var outer := w.frames;
    GrewSome(start, outer, ps);
    var integrity, trust := NonZero(m.deniedIntegrity), NonZero(m.deniedTrust);
    var n := 2 + Count(integrity) + Count(trust);
    :- w.OpenMap(B("access"), n);
    ghost var top := Opened(outer, B("access"), n);
    :- w.KeyU64(B("requested"), e.requested, top, []);
    ghost var qs := [Pair(B("requested"), Int(e.requested))];
    assert [] + qs == qs;
    :- w.KeyU64(B("granted"), e.granted, top, qs);
    qs := qs + [Pair(B("granted"), Int(e.granted))];
    :- KeyOptU64(w, "denied-integrity", integrity, top, qs);
    qs := qs + OptInt("denied-integrity", integrity);
    :- KeyOptU64(w, "denied-trust", trust, top, qs);
    qs := qs + OptInt("denied-trust", trust);
    w.CloseMap(start, ps, outer, B("access"), n, qs);
    return Fine;
  }

  method WriteTrigger(w: MsgpackWriter, e: AuditEvent, ghost start: seq<Frame>, ghost ps: seq<Pair>)
    returns (r: Outcome)
    requires w.Valid() && Grew(start, w.frames, ps)
    modifies w
    ensures r.Fine? <==> (FromSacl(e) ==> |e.ace.value| < U32)
    ensures r.Fine? ==> w.Valid() && Grew(start, w.frames, ps + [Pair(B("trigger"), Map(TriggerPairs(e)))])
  {
    hide B;
    hide Grew;
    hide MsgpackWriter.Valid;
    if FromSacl(e) {
      ghost var outer := w.frames;
      GrewSome(start, outer, ps);
      :- w.OpenMap(B("trigger"), 2);
      ghost var top := Opened(outer, B("trigger"), 2);
      :- w.KeyStr(B("kind"), B("sacl"), top, []);
      ghost var qs := [Pair(B("kind"), Str(B("sacl")))];
      assert [] + qs == qs;
      :- w.KeyBin(B("ace"), e.ace.value, top, qs);
      w.CloseMap(start, ps, outer, B("trigger"), 2, TriggerPairs(e));
    } else {
      :- KeyNamed(w, "trigger", "kind", B("policy"), start, ps);
    }
    return Fine;
  }

  method EncodeAccessChecked(e: AuditEvent, m: CheckMaps, ghost v: CheckValues) returns (r: Outcome, out: Bytes)
    requires MapsEncode(m, v)
    ensures r.Fine? <==> (e.policyForced || e.ace.Some?) && (FromSacl(e) ==> |e.ace.value| < U32)
    ensures r.Fine? ==> Encodes(out, AccessCheckedValue(e, m, v))
  {
    hide B;
    hide Grew;
    hide MsgpackWriter.Valid;
    hide Encodes;
    hide AccessPairs;
    hide TriggerPairs;
    out := [];
    if !e.policyForced && e.ace.None? {
      return Failed(EIO), out;
    }
    var w := new MsgpackWriter();
    var n := CommonLen(m) + 3;
    :- w.OpenRoot(n);
    ghost var root := [Frame([], n, [], [])];
    :- WriteHead(w, m, v, root);
    ghost var ps := HeadPairs(v);
    :- WriteAccess(w, e, m, root, ps);
    ps := ps + [Pair(B("access"), Map(AccessPairs(e, m)))];
    :- KeyFlag(w, "outcome", "success", e.success, root, ps);
    ps := ps + [Pair(B("outcome"), Map([Pair(B("success"), Bool(e.success))]))];
    :- WriteTrigger(w, e, root, ps);
    ps := ps + [Pair(B("trigger"), Map(TriggerPairs(e)))];
    :- WriteTail(w, m.asserted, root, ps);
    ps := ps + TailPairs(m.asserted);
    out := w.IntoVec(n, ps);
    return Fine, out;
  }

  // ----- kacs.audit.privilege.used -----

  /** `name` is the privilege's name, if its bit has one. */
  datatype PrivilegeEvent = PrivilegeEvent(
    name: Option<Bytes>,
    contributed: u32,
    surviving: u32,
    requested: u32,
    granted: u32,
    success: bool)

  function PrivilegePairs(e: PrivilegeEvent, name: Bytes): seq<Pair> {
    [Pair(B("name"), Str(name))] + [Pair(B("contributed"), Int(e.contributed))] +
    [Pair(B("surviving"), Int(e.surviving))]
  }

  function GrantPairs(requested: u32, granted: u32): seq<Pair> {
    [Pair(B("requested"), Int(requested))] + [Pair(B("granted"), Int(granted))]
  }

  function PrivilegeUsedValue(e: PrivilegeEvent, name: Bytes, m: CheckMaps, v: CheckValues): Value {
    Map(HeadPairs(v) +
        [Pair(B("operation"), Map([Pair(B("name"), Str(B("access-check")))]))] +
        [Pair(B("privilege"), Map(PrivilegePairs(e, name)))] +
        [Pair(B("access"), Map(GrantPairs(e.requested, e.granted)))] +
        [Pair(B("outcome"), Map([Pair(B("success"), Bool(e.success))]))] +
        TailPairs(m.asserted))
  }

  method WritePrivilege(w: MsgpackWriter, e: PrivilegeEvent, name: Bytes, ghost start: seq<Frame>, ghost ps: seq<Pair>)
    returns (r: Outcome)
    requires w.Valid() && Grew(start, w.frames, ps)
    modifies w
    ensures r.Fine? <==> |name| < U32
    ensures r.Fine? ==> w.Valid() && Grew(start, w.frames, ps + [Pair(B("privilege"), Map(PrivilegePairs(e, name)))])
  {
    hide B;
    hide Grew;
    hide MsgpackWriter.Valid;
    ghost var outer := w.frames;
    GrewSome(start, outer, ps);
    :- w.OpenMap(B("privilege"), 3);
    ghost var top := Opened(outer, B("privilege"), 3);
    :- w.KeyStr(B("name"), name, top, []);
    ghost var qs := [Pair(B("name"), Str(name))];
    assert [] + qs == qs;
    :- w.KeyU64(B("contributed"), e.contributed, top, qs);
    qs := qs + [Pair(B("contributed"), Int(e.contributed))];
    :- w.KeyU64(B("surviving"), e.surviving, top, qs);
    w.CloseMap(start, ps, outer, B("privilege"), 3, PrivilegePairs(e, name));
    return Fine;
  }

  method WriteGrant(w: MsgpackWriter, requested: u32, granted: u32, ghost start: seq<Frame>, ghost ps: seq<Pair>)
    returns (r: Outcome)
    requires w.Valid() && Grew(start, w.frames, ps)
    modifies w
    ensures r.Fine? && w.Valid() && Grew(start, w.frames, ps + [Pair(B("access"), Map(GrantPairs(requested, granted)))])
  {
    hide B;
    hide Grew;
    hide MsgpackWriter.Valid;
    ghost var outer := w.frames;
    GrewSome(start, outer, ps);
    :- w.OpenMap(B("access"), 2);
    ghost var top := Opened(outer, B("access"), 2);
    :- w.KeyU64(B("requested"), requested, top, []);
    ghost var qs := [Pair(B("requested"), Int(requested))];
    assert [] + qs == qs;
    :- w.KeyU64(B("granted"), granted, top, qs);
    w.CloseMap(start, ps, outer, B("access"), 2, GrantPairs(requested, granted));
    return Fine;
  }

  method EncodePrivilegeUsed(e: PrivilegeEvent, m: CheckMaps, ghost v: CheckValues) returns (r: Outcome, out: Bytes)
    requires MapsEncode(m, v)
    ensures r.Fine? <==> e.name.Some? && |e.name.value| < U32
    ensures r.Fine? ==> Encodes(out, PrivilegeUsedValue(e, e.name.value, m, v))
  {
    hide B;
    hide Grew;
    hide MsgpackWriter.Valid;
    hide Encodes;
    hide PrivilegePairs;
    hide GrantPairs;
    out := [];
    if e.name.None? {
      return Failed(EIO), out;
    }
    var w := new MsgpackWriter();
    var n := CommonLen(m) + 4;
    :- w.OpenRoot(n);
    ghost var root := [Frame([], n, [], [])];
    :- WriteHead(w, m, v, root);
    ghost var ps := HeadPairs(v);
    :- KeyNamed(w, "operation", "name", B("access-check"), root, ps);
    ps := ps + [Pair(B("operation"), Map([Pair(B("name"), Str(B("access-check")))]))];
    :- WritePrivilege(w, e, e.name.value, root, ps);
    ps := ps + [Pair(B("privilege"), Map(PrivilegePairs(e, e.name.value)))];
    :- WriteGrant(w, e.requested, e.granted, root, ps);
    ps := ps + [Pair(B("access"), Map(GrantPairs(e.requested, e.granted)))];
    :- KeyFlag(w, "outcome", "success", e.success, root, ps);
    ps := ps + [Pair(B("outcome"), Map([Pair(B("success"), Bool(e.success))]))];
    :- WriteTail(w, m.asserted, root, ps);
    ps := ps + TailPairs(m.asserted);
    out := w.IntoVec(n, ps);
    return Fine, out;
  }
}
