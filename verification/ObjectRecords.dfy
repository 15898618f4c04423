/** The central-policy, handle-use, impersonation and descriptor-change records. */
module ObjectRecords {
  import opened Widths
  import opened MsgPack
  import opened PayloadWriter
  import opened Utf8
  import opened Payloads
  import opened Records

  // ----- kacs.caap.* -----

  datatype CaapKind = SaclError | StagingMismatch

  datatype CaapEvent = CaapEvent(
    kind: CaapKind,
    phase: Option<Bytes>,
    policySid: Option<Bytes>,
    ruleIndex: Option<u32>,
    reason: Bytes,
    requested: u32,
    granted: u32,
    staged: u32)

  function StagedPairs(e: CaapEvent): seq<Pair> {
    [Pair(B("requested"), Int(e.requested))] + [Pair(B("granted"), Int(e.granted))] +
    [Pair(B("granted-staged"), Int(e.staged))]
  }

  function PolicyPairs(phase: Bytes, sid: Bytes, rule: u32): seq<Pair> {
    [Pair(B("policy"), Map([Pair(B("sid"), Bin(sid))]))] + [Pair(B("rule"), Map([Pair(B("index"), Int(rule))]))] +
    [Pair(B("phase"), Str(phase))]
  }

  /** A skipped SACL names its policy, rule and phase, and says why in UTF-8. */
  predicate CaapComplete(e: CaapEvent) {
    e.kind.SaclError? ==> e.phase.Some? && e.policySid.Some? && e.ruleIndex.Some? && WellFormed(e.reason)
  }

  predicate CaapFits(e: CaapEvent) {
    e.kind.SaclError? && CaapComplete(e) ==>
      |e.phase.value| < U32 && |e.policySid.value| < U32 && |e.reason| < U32
  }

  function CaapValue(e: CaapEvent, m: CheckMaps, v: CheckValues): Value
    requires CaapComplete(e)
  {
    if e.kind.SaclError? then
      Map(HeadPairs(v) +
          [Pair(B("caap"), Map(PolicyPairs(e.phase.value, e.policySid.value, e.ruleIndex.value)))] +
          [Pair(B("outcome"), Map([Pair(B("reason"), Str(e.reason))]))] +
          [Pair(B("access"), Map(StagedPairs(e)))] +
          TailPairs(m.asserted))
    else
      Map(HeadPairs(v) + [Pair(B("access"), Map(StagedPairs(e)))] + TailPairs(m.asserted))
  }

  method WriteStagedAccess(w: MsgpackWriter, e: CaapEvent, ghost start: seq<Frame>, ghost ps: seq<Pair>)
    returns (r: Outcome)
    requires w.Valid() && Grew(start, w.frames, ps)
    modifies w
    ensures r.Fine? && w.Valid() && Grew(start, w.frames, ps + [Pair(B("access"), Map(StagedPairs(e)))])
  {
    hide B;
    hide Grew;
    hide MsgpackWriter.Valid;
    ghost var outer := w.frames;
    GrewSome(start, outer, ps);
    :- w.OpenMap(B("access"), 3);
    ghost var top := Opened(outer, B("access"), 3);
    :- w.KeyU64(B("requested"), e.requested, top, []);
    ghost var qs := [Pair(B("requested"), Int(e.requested))];
    assert [] + qs == qs;
    :- w.KeyU64(B("granted"), e.granted, top, qs);
    qs := qs + [Pair(B("granted"), Int(e.granted))];
    :- w.KeyU64(B("granted-staged"), e.staged, top, qs);
    w.CloseMap(start, ps, outer, B("access"), 3, StagedPairs(e));
    return Fine;
  }

  method WritePolicy(w: MsgpackWriter, phase: Bytes, sid: Bytes, rule: u32, ghost start: seq<Frame>,
                     ghost ps: seq<Pair>)
    returns (r: Outcome)
    requires w.Valid() && Grew(start, w.frames, ps)
    modifies w
    ensures r.Fine? <==> |phase| < U32 && |sid| < U32
    ensures r.Fine? ==> w.Valid() && Grew(start, w.frames, ps + [Pair(B("caap"), Map(PolicyPairs(phase, sid, rule)))])
  {
    hide B;
    hide Grew;
    hide MsgpackWriter.Valid;
    ghost var outer := w.frames;
    GrewSome(start, outer, ps);
    :- w.OpenMap(B("caap"), 3);
    ghost var top := Opened(outer, B("caap"), 3);
    :- KeySid(w, "policy", "sid", sid, top, []);
    ghost var qs := [Pair(B("policy"), Map([Pair(B("sid"), Bin(sid))]))];
    assert [] + qs == qs;
    :- KeyNumber(w, "rule", "index", rule, top, qs);
    qs := qs + [Pair(B("rule"), Map([Pair(B("index"), Int(rule))]))];
    :- w.KeyStr(B("phase"), phase, top, qs);
    w.CloseMap(start, ps, outer, B("caap"), 3, PolicyPairs(phase, sid, rule));
    return Fine;
  }

  method EncodeCaap(e: CaapEvent, m: CheckMaps, ghost v: CheckValues) returns (r: Outcome, out: Bytes)
    requires MapsEncode(m, v)
    ensures r.Fine? <==> CaapComplete(e) && CaapFits(e)
    ensures r.Fine? ==> Encodes(out, CaapValue(e, m, v))
  {
    hide B;
    hide Grew;
    hide MsgpackWriter.Valid;
    hide Encodes;
    hide StagedPairs;
    hide PolicyPairs;
    hide WellFormed;
    out := [];
    if !CaapComplete(e) {
      return Failed(EIO), out;
    }
    var w := new MsgpackWriter();
    var n := CommonLen(m) + if e.kind.SaclError? then 3 else 1;
    :- w.OpenRoot(n);
    ghost var root := [Frame([], n, [], [])];
    :- WriteHead(w, m, v, root);
    ghost var ps := HeadPairs(v);
    if e.kind.SaclError? {
      :- WritePolicy(w, e.phase.value, e.policySid.value, e.ruleIndex.value, root, ps);
      ps := ps + [Pair(B("caap"), Map(PolicyPairs(e.phase.value, e.policySid.value, e.ruleIndex.value)))];
      :- KeyNamed(w, "outcome", "reason", e.reason, root, ps);
      ps := ps + [Pair(B("outcome"), Map([Pair(B("reason"), Str(e.reason))]))];
    }
    :- WriteStagedAccess(w, e, root, ps);
    ps := ps + [Pair(B("access"), Map(StagedPairs(e)))];
    :- WriteTail(w, m.asserted, root, ps);
    ps := ps + TailPairs(m.asserted);
    out := w.IntoVec(n, ps);
    return Fine, out;
  }

  // ----- outcome -----

  /** The reason is reported only for a failure. */
  function OutcomePairs(errno: i32, reason: Option<Bytes>): seq<Pair> {
    [Pair(B("success"), Bool(errno == 0))] +
    (if errno != 0 then [Pair(B("errno"), Int(errno))] else []) +
    OptStr("reason", if errno != 0 then reason else None)
  }

  method WriteOutcome(w: MsgpackWriter, errno: i32, reason: Option<Bytes>, ghost start: seq<Frame>, ghost ps: seq<Pair>)
    returns (r: Outcome)
    requires w.Valid() && Grew(start, w.frames, ps)
    modifies w
    ensures r.Fine? <==> errno == 0 || OptFits(reason)
    ensures r.Fine? ==> w.Valid() && Grew(start, w.frames, ps + [Pair(B("outcome"), Map(OutcomePairs(errno, reason)))])
  {
    hide B;
    hide Grew;
    hide MsgpackWriter.Valid;
    var failed := errno != 0;
    var why := if failed then reason else None;
    ghost var outer := w.frames;
    GrewSome(start, outer, ps);
    var n := 1 + (if failed then 1 else 0) + Count(why);
    :- w.OpenMap(B("outcome"), n);
    ghost var top := Opened(outer, B("outcome"), n);
    :- w.KeyBool(B("success"), !failed, top, []);
    ghost var qs := [Pair(B("success"), Bool(!failed))];
    assert [] + qs == qs;
    assert qs + [] == qs;
    if failed {
      :- w.KeyI64(B("errno"), errno, top, qs);
    }
    qs := qs + if failed then [Pair(B("errno"), Int(errno))] else [];
    :- KeyOptStr(w, "reason", why, top, qs);
    qs := qs + OptStr("reason", why);
    w.CloseMap(start, ps, outer, B("outcome"), n, qs);
    return Fine;
  }

  // ----- kacs.audit.handle.used -----

  datatype HandleUse = HandleUse(
    operation: Bytes,
    path: Option<Bytes>,
    requested: u32,
    matched: u32,
    granted: u32,
    auditMask: u32,
    success: bool,
    reason: byte)

  /** The enforcement codes that are reasons; the ordinary path and the failure of
      the record's own emission are not. */
  function FailureReason(reason: byte): Option<Bytes> {
    match reason
    case 1 => Some(B("signed-exec"))
    case 2 => Some(B("grant-deny"))
    case 3 => Some(B("append-deny"))
    case 4 => Some(B("unmanaged-sysfs"))
    case _ => None
  }

  function FilePairs(path: Option<Bytes>): seq<Pair> {
    [Pair(B("kind"), Str(B("file")))] +
    OptMap("file", if path.Some? then Some([Pair(B("path"), Str(path.value))]) else None)
  }

  function HandleAccessPairs(h: HandleUse): seq<Pair> {
    [Pair(B("requested"), Int(h.requested))] + [Pair(B("matched"), Int(h.matched))] +
    [Pair(B("granted"), Int(h.granted))] + [Pair(B("audit-mask"), Int(h.auditMask))]
  }

  function HandleReason(h: HandleUse): Option<Bytes> {
    if h.success then None else FailureReason(h.reason)
  }

  function HandleOutcomePairs(h: HandleUse): seq<Pair> {
    [Pair(B("success"), Bool(h.success))] + OptStr("reason", HandleReason(h))
  }

  function HandleUsedValue(h: HandleUse, subject: Value, emitter: Value): Value {
    Map([Pair(B("subject"), subject)] + [Pair(B("emitter"), emitter)] +
        [Pair(B("object"), Map(FilePairs(h.path)))] +
        [Pair(B("operation"), Map([Pair(B("name"), Str(h.operation))]))] +
        [Pair(B("access"), Map(HandleAccessPairs(h)))] +
        [Pair(B("outcome"), Map(HandleOutcomePairs(h)))])
  }

  method WriteFile(w: MsgpackWriter, path: Option<Bytes>, ghost start: seq<Frame>, ghost ps: seq<Pair>)
    returns (r: Outcome)
    requires w.Valid() && Grew(start, w.frames, ps)
    modifies w
    ensures r.Fine? <==> OptFits(path)
    ensures r.Fine? ==> w.Valid() && Grew(start, w.frames, ps + [Pair(B("object"), Map(FilePairs(path)))])
  {
    hide B;
    hide Grew;
    hide MsgpackWriter.Valid;
    ghost var outer := w.frames;
    GrewSome(start, outer, ps);
    var n := 1 + Count(path);
    :- w.OpenMap(B("object"), n);
    ghost var top := Opened(outer, B("object"), n);
    :- w.KeyStr(B("kind"), B("file"), top, []);
    ghost var qs := [Pair(B("kind"), Str(B("file")))];
    assert [] + qs == qs;
    assert qs + [] == qs;
    if path.Some? {
      :- KeyNamed(w, "file", "path", path.value, top, qs);
    }
    w.CloseMap(start, ps, outer, B("object"), n, FilePairs(path));
    return Fine;
  }

  method WriteHandleAccess(w: MsgpackWriter, h: HandleUse, ghost start: seq<Frame>, ghost ps: seq<Pair>)
    returns (r: Outcome)
    requires w.Valid() && Grew(start, w.frames, ps)
    modifies w
    ensures r.Fine? && w.Valid() && Grew(start, w.frames, ps + [Pair(B("access"), Map(HandleAccessPairs(h)))])
  {
    hide B;
    hide Grew;
    hide MsgpackWriter.Valid;
    ghost var outer := w.frames;
    GrewSome(start, outer, ps);
    :- w.OpenMap(B("access"), 4);
    ghost var top := Opened(outer, B("access"), 4);
    :- w.KeyU64(B("requested"), h.requested, top, []);
    ghost var qs := [Pair(B("requested"), Int(h.requested))];
    assert [] + qs == qs;
    :- w.KeyU64(B("matched"), h.matched, top, qs);
    qs := qs + [Pair(B("matched"), Int(h.matched))];
    :- w.KeyU64(B("granted"), h.granted, top, qs);
    qs := qs + [Pair(B("granted"), Int(h.granted))];
    :- w.KeyU64(B("audit-mask"), h.auditMask, top, qs);
    w.CloseMap(start, ps, outer, B("access"), 4, HandleAccessPairs(h));
    return Fine;
  }

  method WriteHandleOutcome(w: MsgpackWriter, h: HandleUse, ghost start: seq<Frame>, ghost ps: seq<Pair>)
    returns (r: Outcome)
    requires w.Valid() && Grew(start, w.frames, ps)
    modifies w
    ensures r.Fine? && w.Valid() && Grew(start, w.frames, ps + [Pair(B("outcome"), Map(HandleOutcomePairs(h)))])
  {
    hide B;
    hide Grew;
    hide MsgpackWriter.Valid;
    var reason := HandleReason(h);
    ghost var outer := w.frames;
    GrewSome(start, outer, ps);
    var n := 1 + Count(reason);
    :- w.OpenMap(B("outcome"), n);
    ghost var top := Opened(outer, B("outcome"), n);
    :- w.KeyBool(B("success"), h.success, top, []);
    ghost var qs := [Pair(B("success"), Bool(h.success))];
    assert [] + qs == qs;
    :- KeyOptStr(w, "reason", reason, top, qs);
    w.CloseMap(start, ps, outer, B("outcome"), n, HandleOutcomePairs(h));
    return Fine;
  }

  method EncodeHandleUsed(h: HandleUse, subject: Bytes, emitter: Bytes, ghost sv: Value, ghost ev: Value)
    returns (r: Outcome, out: Bytes)
    requires Encodes(subject, sv) && Encodes(emitter, ev)
    ensures r.Fine? <==>
              && WellFormed(h.operation) && h.requested != 0 && h.matched != 0
              && OptFits(h.path) && |h.operation| < U32
    ensures r.Fine? ==> Encodes(out, HandleUsedValue(h, sv, ev))
  {
    hide B;
    hide Grew;
    hide MsgpackWriter.Valid;
    hide Encodes;
    hide FilePairs;
    hide HandleAccessPairs;
    hide HandleOutcomePairs;
    hide WellFormed;
    out := [];
    if !WellFormed(h.operation) || h.requested == 0 || h.matched == 0 {
      return Failed(EIO), out;
    }
    var w := new MsgpackWriter();
    :- w.OpenRoot(6);
    ghost var root := [Frame([], 6, [], [])];
    :- w.KeyEncoded(B("subject"), subject, sv, root, []);
    ghost var ps := [Pair(B("subject"), sv)];
    assert [] + ps == ps;
    :- w.KeyEncoded(B("emitter"), emitter, ev, root, ps);
    ps := ps + [Pair(B("emitter"), ev)];
    :- WriteFile(w, h.path, root, ps);
    ps := ps + [Pair(B("object"), Map(FilePairs(h.path)))];
    :- KeyNamed(w, "operation", "name", h.operation, root, ps);
    ps := ps + [Pair(B("operation"), Map([Pair(B("name"), Str(h.operation))]))];
    :- WriteHandleAccess(w, h, root, ps);
    ps := ps + [Pair(B("access"), Map(HandleAccessPairs(h)))];
    :- WriteHandleOutcome(w, h, root, ps);
    ps := ps + [Pair(B("outcome"), Map(HandleOutcomePairs(h)))];
    out := w.IntoVec(6, ps);
    return Fine, out;
  }

  // ----- kacs.impersonation.started -----

  datatype Client = Client(
    guid: Bytes,
    id: u64,
    sid: Bytes,
    kind: TokenType,
    integrity: u32,
    auth: Option<u64>,
    restricted: bool,
    requested: Level,
    permitted: Option<u64>,
    usedImpersonate: bool)

  function ClientPairs(c: Client): seq<Pair> {
    [Pair(B("guid"), Bin(c.guid))] +
    [Pair(B("id"), Int(c.id))] +
    [Pair(B("sid"), Bin(c.sid))] +
    [Pair(B("type"), Str(TypeName(c.kind)))] +
    [Pair(B("integrity"), Int(c.integrity))] +
    OptInt("auth-id", c.auth) +
    [Pair(B("restricted"), Bool(c.restricted))] +
    [Pair(B("impersonation"), Int(ReportedLevel(c.kind, c.requested)))] +
    OptInt("impersonation-permitted", c.permitted)
  }

  function ClientObject(c: Client): seq<Pair> {
    [Pair(B("kind"), Str(B("token")))] + [Pair(B("token"), Map(ClientPairs(c)))]
  }

  function UsedPairs(): seq<Pair> {
    [Pair(B("name"), Str(B("SeImpersonatePrivilege")))] + [Pair(B("held"), Bool(true))]
  }

  function ImpersonationValue(c: Client, errno: i32, reason: Option<Bytes>, subject: Value, emitter: Value): Value {
    Map([Pair(B("subject"), subject)] + [Pair(B("emitter"), emitter)] +
        [Pair(B("object"), Map(ClientObject(c)))] +
        OptMap("privilege", if c.usedImpersonate then Some(UsedPairs()) else None) +
        [Pair(B("outcome"), Map(OutcomePairs(errno, reason)))])
  }

  method WriteClient(w: MsgpackWriter, c: Client, ghost start: seq<Frame>, ghost ps: seq<Pair>) returns (r: Outcome)
    requires w.Valid() && Grew(start, w.frames, ps)
    modifies w
    ensures r.Fine? <==> |c.guid| < U32 && |c.sid| < U32
    ensures r.Fine? ==> w.Valid() && Grew(start, w.frames, ps + [Pair(B("token"), Map(ClientPairs(c)))])
  {
    hide B;
    hide Grew;
    hide MsgpackWriter.Valid;
    ghost var outer := w.frames;
    GrewSome(start, outer, ps);
    var n := 7 + Count(c.auth) + Count(c.permitted);
    :- w.OpenMap(B("token"), n);
    ghost var top := Opened(outer, B("token"), n);
    :- w.KeyBin(B("guid"), c.guid, top, []);
    ghost var qs := [Pair(B("guid"), Bin(c.guid))];
    assert [] + qs == qs;
    :- w.KeyU64(B("id"), c.id, top, qs);
    qs := qs + [Pair(B("id"), Int(c.id))];
    :- w.KeyBin(B("sid"), c.sid, top, qs);
    qs := qs + [Pair(B("sid"), Bin(c.sid))];
    :- w.KeyStr(B("type"), TypeName(c.kind), top, qs);
    qs := qs + [Pair(B("type"), Str(TypeName(c.kind)))];
    :- w.KeyU64(B("integrity"), c.integrity, top, qs);
    qs := qs + [Pair(B("integrity"), Int(c.integrity))];
    :- KeyOptU64(w, "auth-id", c.auth, top, qs);
    qs := qs + OptInt("auth-id", c.auth);
    :- w.KeyBool(B("restricted"), c.restricted, top, qs);
    qs := qs + [Pair(B("restricted"), Bool(c.restricted))];
    var level := ReportedLevel(c.kind, c.requested);
    :- w.KeyU64(B("impersonation"), level, top, qs);
    qs := qs + [Pair(B("impersonation"), Int(level))];
    :- KeyOptU64(w, "impersonation-permitted", c.permitted, top, qs);
    qs := qs + OptInt("impersonation-permitted", c.permitted);
    w.CloseMap(start, ps, outer, B("token"), n, qs);
    return Fine;
  }

  method WriteClientObject(w: MsgpackWriter, c: Client, ghost start: seq<Frame>, ghost ps: seq<Pair>)
    returns (r: Outcome)
    requires w.Valid() && Grew(start, w.frames, ps)
    modifies w
    ensures r.Fine? <==> |c.guid| < U32 && |c.sid| < U32
    ensures r.Fine? ==> w.Valid() && Grew(start, w.frames, ps + [Pair(B("object"), Map(ClientObject(c)))])
  {
    hide B;
    hide Grew;
    hide MsgpackWriter.Valid;
    hide ClientPairs;
    ghost var outer := w.frames;
    GrewSome(start, outer, ps);
    :- w.OpenMap(B("object"), 2);
    ghost var top := Opened(outer, B("object"), 2);
    :- w.KeyStr(B("kind"), B("token"), top, []);
    ghost var qs := [Pair(B("kind"), Str(B("token")))];
    assert [] + qs == qs;
    :- WriteClient(w, c, top, qs);
    qs := qs + [Pair(B("token"), Map(ClientPairs(c)))];
    w.CloseMap(start, ps, outer, B("object"), 2, qs);
    return Fine;
  }

  method WriteUsedPrivilege(w: MsgpackWriter, used: bool, ghost start: seq<Frame>, ghost ps: seq<Pair>)
    returns (r: Outcome)
    requires w.Valid() && Grew(start, w.frames, ps)
    modifies w
    ensures r.Fine? && w.Valid()
    ensures Grew(start, w.frames, ps + OptMap("privilege", if used then Some(UsedPairs()) else None))
  {
    hide B;
    hide Grew;
    hide MsgpackWriter.Valid;
    assert ps + [] == ps;
    if used {
      ghost var outer := w.frames;
      GrewSome(start, outer, ps);
      :- w.OpenMap(B("privilege"), 2);
      ghost var top := Opened(outer, B("privilege"), 2);
      :- w.KeyStr(B("name"), B("SeImpersonatePrivilege"), top, []);
      ghost var qs := [Pair(B("name"), Str(B("SeImpersonatePrivilege")))];
      assert [] + qs == qs;
      :- w.KeyBool(B("held"), true, top, qs);
      w.CloseMap(start, ps, outer, B("privilege"), 2, UsedPairs());
    }
    return Fine;
  }

  method EncodeImpersonationStarted(c: Client, errno: i32, reason: Option<Bytes>, subject: Bytes, emitter: Bytes,
                                    ghost sv: Value, ghost ev: Value) returns (r: Outcome, out: Bytes)
    requires Encodes(subject, sv) && Encodes(emitter, ev)
    ensures r.Fine? <==> |c.guid| < U32 && |c.sid| < U32 && (errno == 0 || OptFits(reason))
    ensures r.Fine? ==> Encodes(out, ImpersonationValue(c, errno, reason, sv, ev))
  {
    hide B;
    hide Grew;
    hide MsgpackWriter.Valid;
    hide Encodes;
    hide ClientObject;
    hide OutcomePairs;
    hide UsedPairs;
    out := [];
    var w := new MsgpackWriter();
    var n := 4 + if c.usedImpersonate then 1 else 0;
    :- w.OpenRoot(n);
    ghost var root := [Frame([], n, [], [])];
    :- w.KeyEncoded(B("subject"), subject, sv, root, []);
    ghost var ps := [Pair(B("subject"), sv)];
    assert [] + ps == ps;
    :- w.KeyEncoded(B("emitter"), emitter, ev, root, ps);
    ps := ps + [Pair(B("emitter"), ev)];
    :- WriteClientObject(w, c, root, ps);
    ps := ps + [Pair(B("object"), Map(ClientObject(c)))];
    :- WriteUsedPrivilege(w, c.usedImpersonate, root, ps);
    ps := ps + OptMap("privilege", if c.usedImpersonate then Some(UsedPairs()) else None);
    :- WriteOutcome(w, errno, reason, root, ps);
    ps := ps + [Pair(B("outcome"), Map(OutcomePairs(errno, reason)))];
    out := w.IntoVec(n, ps);
    return Fine, out;
  }

  // ----- object of kacs.audit.descriptor.changed -----

  datatype DescriptorObject =
    | FileObject(path: Option<Bytes>)
    | TokenTarget(token: u64, tokenGuid: Bytes)
    | ProcessObject(processGuid: Bytes)
    | IpcObject(ipc: Bytes, id: i64)

  datatype Facts = Facts(len: u64, digest: Bytes, owner: Option<Bytes>)

  datatype Change = Change(target: DescriptorObject, components: u32, previous: Option<Facts>, current: Option<Facts>)

  function KindName(o: DescriptorObject): Bytes {
    match o
    case FileObject(_) => B("file")
    case TokenTarget(_, _) => B("token")
    case ProcessObject(_) => B("process")
    case IpcObject(_, _) => B("ipc")
  }

  function BodyPairs(o: DescriptorObject): seq<Pair> {
    match o
    case FileObject(path) => OptMap("file", if path.Some? then Some([Pair(B("path"), Str(path.value))]) else None)
    case TokenTarget(id, guid) => [Pair(B("token"), Map(TokenIdentity(id, guid)))]
    case ProcessObject(guid) => [Pair(B("process"), Map([Pair(B("guid"), Bin(guid))]))]
    case IpcObject(kind, id) => [Pair(B("ipc"), Map([Pair(B("type"), Str(kind))] + [Pair(B("id"), Int(id))]))]
  }

  predicate BodyFits(o: DescriptorObject) {
    match o
    case FileObject(path) => OptFits(path)
    case TokenTarget(_, guid) => |guid| < U32
    case ProcessObject(guid) => |guid| < U32
    case IpcObject(kind, _) => |kind| < U32
  }

  /** One side of the change; `suffix` tells the previous descriptor's fields. */
  function SidePairs(f: Option<Facts>, suffix: string): seq<Pair> {
    if f.None? then []
    else [Pair(B("length" + suffix), Int(f.value.len))] + [Pair(B("digest" + suffix), Bin(f.value.digest))] +
         OptBin("owner" + suffix, f.value.owner)
  }

  function SideLen(f: Option<Facts>): nat {
    if f.None? then 0 else 2 + Count(f.value.owner)
  }

  predicate SideFits(f: Option<Facts>) {
    f.Some? ==> |f.value.digest| < U32 && OptFits(f.value.owner)
  }

  function SdPairs(c: Change): seq<Pair> {
    [Pair(B("components"), Int(c.components))] + SidePairs(c.current, "") + SidePairs(c.previous, "-previous")
  }

  function DescriptorPairs(c: Change): seq<Pair> {
    [Pair(B("kind"), Str(KindName(c.target)))] + BodyPairs(c.target) + [Pair(B("sd"), Map(SdPairs(c)))]
  }

  method WriteBody(w: MsgpackWriter, o: DescriptorObject, ghost start: seq<Frame>, ghost ps: seq<Pair>)
    returns (r: Outcome)
    requires w.Valid() && Grew(start, w.frames, ps)
    modifies w
    ensures r.Fine? <==> BodyFits(o)
    ensures r.Fine? ==> w.Valid() && Grew(start, w.frames, ps + BodyPairs(o))
  {
    hide B;
    hide Grew;
    hide MsgpackWriter.Valid;
    hide TokenIdentity;
    assert ps + [] == ps;
    match o {
      case FileObject(path) =>
        if path.Some? {
          :- KeyNamed(w, "file", "path", path.value, start, ps);
        }
      case TokenTarget(id, guid) =>
        :- WriteTokenIdentity(w, id, guid, start, ps);
      case ProcessObject(guid) =>
        :- KeySid(w, "process", "guid", guid, start, ps);
      case IpcObject(kind, id) =>
        ghost var outer := w.frames;
        GrewSome(start, outer, ps);
        :- w.OpenMap(B("ipc"), 2);
        ghost var top := Opened(outer, B("ipc"), 2);
        :- w.KeyStr(B("type"), kind, top, []);
        ghost var qs := [Pair(B("type"), Str(kind))];
        assert [] + qs == qs;
        :- w.KeyI64(B("id"), id, top, qs);
        w.CloseMap(start, ps, outer, B("ipc"), 2, qs + [Pair(B("id"), Int(id))]);
    }
    return Fine;
  }

  method WriteSide(w: MsgpackWriter, f: Option<Facts>, suffix: string, ghost start: seq<Frame>, ghost ps: seq<Pair>)
    returns (r: Outcome)
    requires w.Valid() && Grew(start, w.frames, ps) && |suffix| < 32
    modifies w
    ensures r.Fine? <==> SideFits(f)
    ensures r.Fine? ==> w.Valid() && Grew(start, w.frames, ps + SidePairs(f, suffix))
  {
    hide B;
    hide Grew;
    hide MsgpackWriter.Valid;
    assert ps + [] == ps;
    if f.Some? {
      ghost var length := [Pair(B("length" + suffix), Int(f.value.len))];
      ghost var digest := [Pair(B("digest" + suffix), Bin(f.value.digest))];
      ghost var owner := OptBin("owner" + suffix, f.value.owner);
      :- w.KeyU64(B("length" + suffix), f.value.len, start, ps);
      :- w.KeyBin(B("digest" + suffix), f.value.digest, start, ps + length);
      :- KeyOptBin(w, "owner" + suffix, f.value.owner, start, ps + length + digest);
      assert ps + length + digest + owner == ps + (length + digest + owner);
    }
    return Fine;
  }

  method WriteSd(w: MsgpackWriter, c: Change, ghost start: seq<Frame>, ghost ps: seq<Pair>) returns (r: Outcome)
    requires w.Valid() && Grew(start, w.frames, ps)
    modifies w
    ensures r.Fine? <==> SideFits(c.current) && SideFits(c.previous)
    ensures r.Fine? ==> w.Valid() && Grew(start, w.frames, ps + [Pair(B("sd"), Map(SdPairs(c)))])
  {
    hide B;
    hide Grew;
    hide MsgpackWriter.Valid;
    hide SidePairs;
    hide SideFits;
    ghost var outer := w.frames;
    GrewSome(start, outer, ps);
    var n := 1 + SideLen(c.current) + SideLen(c.previous);
    :- w.OpenMap(B("sd"), n);
    ghost var top := Opened(outer, B("sd"), n);
    :- w.KeyU64(B("components"), c.components, top, []);
    ghost var qs := [Pair(B("components"), Int(c.components))];
    assert [] + qs == qs;
    :- WriteSide(w, c.current, "", top, qs);
    qs := qs + SidePairs(c.current, "");
    :- WriteSide(w, c.previous, "-previous", top, qs);
    qs := qs + SidePairs(c.previous, "-previous");
    SideCount(c.current, "");
    SideCount(c.previous, "-previous");
    w.CloseMap(start, ps, outer, B("sd"), n, qs);
    return Fine;
  }

  lemma SideCount(f: Option<Facts>, suffix: string)
    ensures |SidePairs(f, suffix)| == SideLen(f)
  {}

  method WriteDescriptorObject(w: MsgpackWriter, c: Change, ghost start: seq<Frame>, ghost ps: seq<Pair>)
    returns (r: Outcome)
    requires w.Valid() && Grew(start, w.frames, ps)
    modifies w
    ensures r.Fine? <==> BodyFits(c.target) && SideFits(c.current) && SideFits(c.previous)
    ensures r.Fine? ==> w.Valid() && Grew(start, w.frames, ps + [Pair(B("object"), Map(DescriptorPairs(c)))])
  {
    hide B;
    hide Grew;
    hide MsgpackWriter.Valid;
    hide SdPairs;
    hide SideFits;
    hide BodyFits;
    ghost var outer := w.frames;
    GrewSome(start, outer, ps);
    var hasBody := !(c.target.FileObject? && c.target.path.None?);
    var n := 2 + if hasBody then 1 else 0;
    :- w.OpenMap(B("object"), n);
    ghost var top := Opened(outer, B("object"), n);
    KindIsShort(c.target);
    :- w.KeyStr(B("kind"), KindName(c.target), top, []);
    ghost var qs := [Pair(B("kind"), Str(KindName(c.target)))];
    assert [] + qs == qs;
    :- WriteBody(w, c.target, top, qs);
    qs := qs + BodyPairs(c.target);
    :- WriteSd(w, c, top, qs);
    qs := qs + [Pair(B("sd"), Map(SdPairs(c)))];
    w.CloseMap(start, ps, outer, B("object"), n, qs);
    return Fine;
  }

  lemma KindIsShort(o: DescriptorObject)
    ensures |KindName(o)| < 8
  {}
}
