/** What a reader who looks a field up by name finds in the audit records: the
    dictionary each map stands for, whatever order its pairs were written in. */
module AuditFields {
  import opened Widths
  import opened MsgPack
  import opened PayloadWriter
  import opened Payloads
  import opened Records
  import opened ObjectRecords
  import opened StrataRecords
  import opened StrataDecode

  // ----- dictionaries -----

  type Dictionary = map<string, Value>

  /** Names are spelled in 8-bit characters. */
  predicate Latin(s: string) {
    forall i :: 0 <= i < |s| ==> s[i] as int < 256
  }

  lemma SpellingIsUnique(s: string, t: string)
    requires Latin(s) && Latin(t) && B(s) == B(t)
    ensures s == t
  {
    forall i | 0 <= i < |s| ensures s[i] == t[i] {
      assert B(s)[i] == B(t)[i];
    }
  }

  /** The map holds every entry of the dictionary, once, and nothing else: whoever looks
      a name up finds its value and no other. */
  ghost predicate Denotes(ps: seq<Pair>, d: Dictionary) {
    && (forall k :: k in d ==> Latin(k) && Pair(B(k), d[k]) in ps)
    && (forall p :: p in ps ==> exists k :: k in d && p == Pair(B(k), d[k]))
    && |ps| == |d|
  }

  /** A map stands for one dictionary only. */
  lemma OneMeaning(ps: seq<Pair>, d: Dictionary, e: Dictionary)
    requires Denotes(ps, d) && Denotes(ps, e)
    ensures d == e
  {
    hide B;
    hide Latin;
    forall k | k in d ensures k in e && d[k] == e[k] {
      Agrees(ps, d, e, k);
    }
    forall k | k in e ensures k in d && d[k] == e[k] {
      Agrees(ps, e, d, k);
    }
  }

  lemma Agrees(ps: seq<Pair>, d: Dictionary, e: Dictionary, k: string)
    requires Denotes(ps, d) && Denotes(ps, e) && k in d
    ensures k in e && d[k] == e[k]
  {
    hide B;
    hide Latin;
    var j :| j in e && Pair(B(k), d[k]) == Pair(B(j), e[j]);
    SpellingIsUnique(j, k);
  }

  /** The dictionary with one more field, if there is one. */
  function Also(d: Dictionary, name: string, v: Option<Value>): Dictionary {
    if v.Some? then d[name := v.value] else d
  }

  /** Pairs written so far, what they stand for, and the names used up. */
  datatype Draft = Draft(ps: seq<Pair>, d: Dictionary, names: set<string>)

  ghost predicate Good(t: Draft) {
    Denotes(t.ps, t.d) && t.d.Keys <= t.names
  }

  const EMPTY := Draft([], map[], {})

  lemma EmptyIsGood()
    ensures Good(EMPTY)
  {}

  lemma Put(t: Draft, name: string, v: Option<Value>) returns (r: Draft)
    requires Good(t) && Latin(name) && name !in t.names
    ensures Good(r) && r == Draft(t.ps + OptValue(name, v), Also(t.d, name, v), t.names + {name})
  {
    hide Denotes;
    r := Draft(t.ps + OptValue(name, v), Also(t.d, name, v), t.names + {name});
    if v.Some? {
      PutOne(t.ps, t.d, name, v.value);
    } else {
      assert r.ps == t.ps;
    }
  }

  lemma PutOne(ps: seq<Pair>, d: Dictionary, name: string, v: Value)
    requires Denotes(ps, d) && Latin(name) && name !in d
    ensures Denotes(ps + [Pair(B(name), v)], d[name := v])
  {
    hide B;
    hide Latin;
    var qs, e := ps + [Pair(B(name), v)], d[name := v];
    assert Pair(B(name), v) in qs;
    forall p | p in qs ensures exists k :: k in e && p == Pair(B(k), e[k]) {
      if p in ps {
        var j :| j in d && p == Pair(B(j), d[j]);
        assert j in e && e[j] == d[j];
      } else {
        assert name in e;
      }
    }
  }

  // ----- names -----

  lemma SubjectNames()
    ensures Latin("sid") && Latin("groups") && Latin("group-attributes") && Latin("integrity") && Latin("id")
    ensures Latin("auth-id") && Latin("type") && Latin("impersonation") && Latin("uid")
  {}

  lemma ProcessNames()
    ensures Latin("pid") && Latin("name") && Latin("executable") && Latin("token") && Latin("pip") && Latin("trust")
    ensures Latin("guid") && Latin("restricted") && Latin("impersonation-permitted")
  {}

  lemma RecordNames()
    ensures Latin("subject") && Latin("emitter") && Latin("object") && Latin("access") && Latin("outcome")
    ensures Latin("trigger") && Latin("fields") && Latin("operation") && Latin("privilege") && Latin("caap")
  {}

  lemma AccessNames()
    ensures Latin("requested") && Latin("granted") && Latin("denied-integrity") && Latin("denied-trust")
    ensures Latin("granted-staged") && Latin("matched") && Latin("audit-mask") && Latin("kind") && Latin("ace")
  {}

  lemma OtherNames()
    ensures Latin("contributed") && Latin("surviving") && Latin("policy") && Latin("rule") && Latin("phase")
    ensures Latin("success") && Latin("errno") && Latin("reason") && Latin("file") && Latin("deferred")
  {}

  lemma DescriptorNames()
    ensures Latin("components") && Latin("length") && Latin("digest") && Latin("owner")
    ensures Latin("length-previous") && Latin("digest-previous") && Latin("owner-previous")
  {}

  lemma StrataNames()
    ensures Latin("source") && Latin("destination") && Latin("index") && Latin("path")
  {}

  // ----- who -----

  function Numbered(n: Option<u64>): Option<Value> {
    if n.Some? then Some(Int(n.value)) else None
  }

  function Texted(s: Option<Bytes>): Option<Value> {
    if s.Some? then Some(Str(s.value)) else None
  }

  /** A number that is left out when it is zero. */
  function UnlessZero(n: u32): Option<Value> {
    if n == 0 then None else Some(Int(n))
  }

  /** The process behind a record; the executable only if it is known. */
  lemma ProcessFields(p: Process)
    ensures
      && ProcessValue(p).Map?
      && Denotes(ProcessValue(p).pairs,
                 Also(map["pid" := Int(p.pid)]["name" := Str(p.name)],
                      "executable", if p.executable == [] then None else Some(Str(p.executable))))
  {
    hide B;
    hide Latin;
    hide Good;
    hide Denotes;
    ProcessNames();
    EmptyIsGood();
    var t := Put(EMPTY, "pid", Some(Int(p.pid)));
    t := Put(t, "name", Some(Str(p.name)));
    t := Put(t, "executable", if p.executable == [] then None else Some(Str(p.executable)));
    assert t.ps == ProcessValue(p).pairs;
    DraftDenotes(t);
  }

  lemma DraftDenotes(t: Draft)
    requires Good(t)
    ensures Denotes(t.ps, t.d)
  {}

  /** The impersonation level, as a number; a primary token has none. */
  function LevelNumber(kind: TokenType, level: Level): Value {
    Int(if kind.Primary? || level.LevelAnonymous? then 0
        else if level.LevelIdentification? then 1 else if level.LevelImpersonation? then 2 else 3)
  }

  function KindText(kind: TokenType): Value {
    Str(B(if kind.Primary? then "primary" else "impersonation"))
  }

  function TokenNumber(ids: Option<Ids>): Option<Value> {
    if ids.Some? then Some(Int(ids.value.token)) else None
  }

  function AuthNumber(ids: Option<Ids>): Option<Value> {
    if ids.Some? && ids.value.auth.Some? then Some(Int(ids.value.auth.value)) else None
  }

  function UserNumber(ids: Option<Ids>): Option<Value> {
    if ids.Some? then Some(Int(ids.value.uid)) else None
  }

  /** The acting token; its numbers only as far as they are known. */
  lemma TokenFields(t: Token, ids: Option<Ids>)
    ensures
      Denotes(TokenPairs(t, ids),
              Also(Also(Also(map["sid" := Bin(t.sid)]["groups" := Arr(Sids(t.groups))]
                                ["group-attributes" := Arr(Attributes(t.groups))]["integrity" := Int(t.integrity)],
                             "id", TokenNumber(ids)),
                        "auth-id", AuthNumber(ids))["type" := KindText(t.kind)]
                   ["impersonation" := LevelNumber(t.kind, t.level)],
                   "uid", UserNumber(ids)))
  {
    hide B;
    hide Latin;
    hide Good;
    hide Denotes;
    hide Sids;
    hide Attributes;
    SubjectNames();
    var r := TokenStart(t);
    r := Put(r, "id", TokenNumber(ids));
    r := Put(r, "auth-id", AuthNumber(ids));
    r := Put(r, "type", Some(KindText(t.kind)));
    r := Put(r, "impersonation", Some(LevelNumber(t.kind, t.level)));
    r := Put(r, "uid", UserNumber(ids));
    assert r.ps == TokenPairs(t, ids);
    DraftDenotes(r);
  }

  lemma TokenStart(t: Token) returns (r: Draft)
    ensures Good(r) && r.names == {"sid", "groups", "group-attributes", "integrity"}
    ensures r.ps == [Pair(B("sid"), Bin(t.sid))] + [Pair(B("groups"), Arr(Sids(t.groups)))] +
                    [Pair(B("group-attributes"), Arr(Attributes(t.groups)))] +
                    [Pair(B("integrity"), Int(t.integrity))]
    ensures r.d == map["sid" := Bin(t.sid)]["groups" := Arr(Sids(t.groups))]
                      ["group-attributes" := Arr(Attributes(t.groups))]["integrity" := Int(t.integrity)]
  {
    hide B;
    hide Latin;
    hide Good;
    hide Denotes;
    hide Sids;
    hide Attributes;
    SubjectNames();
    EmptyIsGood();
    r := Put(EMPTY, "sid", Some(Bin(t.sid)));
    r := Put(r, "groups", Some(Arr(Sids(t.groups))));
    r := Put(r, "group-attributes", Some(Arr(Attributes(t.groups))));
    r := Put(r, "integrity", Some(Int(t.integrity)));
  }

  function TrustPairs(pip: Pip): seq<Pair> {
    [Pair(B("type"), Int(pip.kind)), Pair(B("trust"), Int(pip.trust))]
  }

  /** The subject: its token, and the process trust it acts under. */
  lemma SubjectFields(t: Token, ids: Option<Ids>, pip: Pip)
    ensures
      && SubjectValue(t, ids, pip).Map?
      && Denotes(SubjectValue(t, ids, pip).pairs,
                 map["token" := Map(TokenPairs(t, ids))]["pip" := Map(TrustPairs(pip))])
      && Denotes(TrustPairs(pip), map["type" := Int(pip.kind)]["trust" := Int(pip.trust)])
  {
    hide B;
    hide Latin;
    hide Good;
    hide Denotes;
    hide TokenPairs;
    TrustFields(pip);
    ProcessNames();
    EmptyIsGood();
    var r := Put(EMPTY, "token", Some(Map(TokenPairs(t, ids))));
    r := Put(r, "pip", Some(Map(TrustPairs(pip))));
    assert r.ps == SubjectValue(t, ids, pip).pairs;
    DraftDenotes(r);
  }

  lemma TrustFields(pip: Pip)
    ensures Denotes(TrustPairs(pip), map["type" := Int(pip.kind)]["trust" := Int(pip.trust)])
  {
    hide B;
    hide Latin;
    hide Good;
    hide Denotes;
    SubjectNames();
    ProcessNames();
    EmptyIsGood();
    var r := Put(EMPTY, "type", Some(Int(pip.kind)));
    r := Put(r, "trust", Some(Int(pip.trust)));
    assert r.ps == TrustPairs(pip);
    DraftDenotes(r);
  }

  /** A token that is looked at, by number and by GUID. */
  lemma TokenIdentityFields(id: u64, guid: Bytes)
    ensures Denotes(TokenIdentity(id, guid), map["id" := Int(id)]["guid" := Bin(guid)])
  {
    hide B;
    hide Latin;
    hide Good;
    hide Denotes;
    SubjectNames();
    ProcessNames();
    EmptyIsGood();
    var t := Put(EMPTY, "id", Some(Int(id)));
    t := Put(t, "guid", Some(Bin(guid)));
    assert t.ps == TokenIdentity(id, guid);
    DraftDenotes(t);
  }

  // ----- access checks -----

  /** `access.requested` is what was asked and `access.granted` what was given; the parts
      withheld by integrity and by trust are named apart, and only if any were. */
  lemma AccessFields(e: AuditEvent, m: CheckMaps)
    ensures
      Denotes(AccessPairs(e, m),
              Also(Also(map["requested" := Int(e.requested)]["granted" := Int(e.granted)],
                        "denied-integrity", UnlessZero(m.deniedIntegrity)),
                   "denied-trust", UnlessZero(m.deniedTrust)))
  {
    hide B;
    hide Latin;
    hide Good;
    hide Denotes;
    AccessNames();
    EmptyIsGood();
    var t := Put(EMPTY, "requested", Some(Int(e.requested)));
    t := Put(t, "granted", Some(Int(e.granted)));
    t := Put(t, "denied-integrity", UnlessZero(m.deniedIntegrity));
    t := Put(t, "denied-trust", UnlessZero(m.deniedTrust));
    assert t.ps == AccessPairs(e, m);
    DraftDenotes(t);
  }

  /** `trigger.kind` is `sacl`, with the ACE, exactly when an ACE matched and no policy
      forced the record. */
  lemma TriggerFields(e: AuditEvent)
    ensures
      Denotes(TriggerPairs(e),
              if e.ace.Some? && !e.policyForced then map["kind" := Str(B("sacl"))]["ace" := Bin(e.ace.value)]
              else map["kind" := Str(B("policy"))])
  {
    hide B;
    hide Latin;
    hide Good;
    hide Denotes;
    AccessNames();
    EmptyIsGood();
    var sacl := e.ace.Some? && !e.policyForced;
    var t := Put(EMPTY, "kind", Some(if sacl then Str(B("sacl")) else Str(B("policy"))));
    if sacl {
      t := Put(t, "ace", Some(Bin(e.ace.value)));
    }
    assert t.ps == TriggerPairs(e);
    DraftDenotes(t);
  }

  /** The maps that every record of an access check begins with. */
  lemma Head(v: CheckValues) returns (t: Draft)
    ensures Good(t) && t.ps == HeadPairs(v) && t.names == {"subject", "emitter", "object"}
    ensures t.d == Also(map["subject" := v.subject]["emitter" := v.emitter], "object", v.object_)
  {
    hide B;
    hide Latin;
    hide Good;
    RecordNames();
    EmptyIsGood();
    t := Put(EMPTY, "subject", Some(v.subject));
    t := Put(t, "emitter", Some(v.emitter));
    t := Put(t, "object", v.object_);
    assert t.ps == HeadPairs(v);
  }

  function FromUserspace(asserted: bool): Option<Value> {
    if asserted then Some(Map([Pair(B("attestation"), Map([Pair(B("userspace"), Bool(true))]))])) else None
  }

  /** `kacs.audit.access.checked` */
  lemma AccessCheckedFields(e: AuditEvent, m: CheckMaps, v: CheckValues)
    ensures
      && AccessCheckedValue(e, m, v).Map?
      && Denotes(AccessCheckedValue(e, m, v).pairs,
                 Also(Also(map["subject" := v.subject]["emitter" := v.emitter], "object", v.object_)
                      ["access" := Map(AccessPairs(e, m))]
                      ["outcome" := Map([Pair(B("success"), Bool(e.success))])]
                      ["trigger" := Map(TriggerPairs(e))],
                      "fields", FromUserspace(m.asserted)))
  {
    hide B;
    hide Latin;
    hide Good;
    hide Denotes;
    hide AccessPairs;
    hide TriggerPairs;
    hide HeadPairs;
    RecordNames();
    var t := Head(v);
    t := Put(t, "access", Some(Map(AccessPairs(e, m))));
    t := Put(t, "outcome", Some(Map([Pair(B("success"), Bool(e.success))])));
    t := Put(t, "trigger", Some(Map(TriggerPairs(e))));
    t := Put(t, "fields", FromUserspace(m.asserted));
    assert t.ps == AccessCheckedValue(e, m, v).pairs;
    DraftDenotes(t);
  }

  /** `kacs.audit.privilege.used`: what the privilege contributed and what of it survived
      are not what the check requested and granted. */
  lemma PrivilegeUsedFields(e: PrivilegeEvent, name: Bytes, m: CheckMaps, v: CheckValues)
    ensures
      && PrivilegeUsedValue(e, name, m, v).Map?
      && Denotes(PrivilegeUsedValue(e, name, m, v).pairs,
                 Also(Also(map["subject" := v.subject]["emitter" := v.emitter], "object", v.object_)
                      ["operation" := Map([Pair(B("name"), Str(B("access-check")))])]
                      ["privilege" := Map(PrivilegePairs(e, name))]
                      ["access" := Map(GrantPairs(e.requested, e.granted))]
                      ["outcome" := Map([Pair(B("success"), Bool(e.success))])],
                      "fields", FromUserspace(m.asserted)))
      && Denotes(PrivilegePairs(e, name), map["name" := Str(name)]["contributed" := Int(e.contributed)]
                                             ["surviving" := Int(e.surviving)])
      && Denotes(GrantPairs(e.requested, e.granted), map["requested" := Int(e.requested)]["granted" := Int(e.granted)])
  {
    hide B;
    hide Latin;
    hide Good;
    hide Denotes;
    hide PrivilegePairs;
    hide GrantPairs;
    hide HeadPairs;
    PrivilegeFields(e, name);
    GrantFields(e.requested, e.granted);
    RecordNames();
    var t := Head(v);
    t := Put(t, "operation", Some(Map([Pair(B("name"), Str(B("access-check")))])));
    t := Put(t, "privilege", Some(Map(PrivilegePairs(e, name))));
    t := Put(t, "access", Some(Map(GrantPairs(e.requested, e.granted))));
    t := Put(t, "outcome", Some(Map([Pair(B("success"), Bool(e.success))])));
    t := Put(t, "fields", FromUserspace(m.asserted));
    assert t.ps == PrivilegeUsedValue(e, name, m, v).pairs;
    DraftDenotes(t);
  }

  lemma PrivilegeFields(e: PrivilegeEvent, name: Bytes)
    ensures Denotes(PrivilegePairs(e, name), map["name" := Str(name)]["contributed" := Int(e.contributed)]
                                                ["surviving" := Int(e.surviving)])
  {
    hide B;
    hide Latin;
    hide Good;
    hide Denotes;
    ProcessNames();
    OtherNames();
    EmptyIsGood();
    var t := Put(EMPTY, "name", Some(Str(name)));
    t := Put(t, "contributed", Some(Int(e.contributed)));
    t := Put(t, "surviving", Some(Int(e.surviving)));
    assert t.ps == PrivilegePairs(e, name);
    DraftDenotes(t);
  }

  lemma GrantFields(requested: u32, granted: u32)
    ensures Denotes(GrantPairs(requested, granted), map["requested" := Int(requested)]["granted" := Int(granted)])
  {
    hide B;
    hide Latin;
    hide Good;
    hide Denotes;
    AccessNames();
    EmptyIsGood();
    var t := Put(EMPTY, "requested", Some(Int(requested)));
    t := Put(t, "granted", Some(Int(granted)));
    assert t.ps == GrantPairs(requested, granted);
    DraftDenotes(t);
  }

  /** `kacs.caap.*`: what was granted, and what a staged policy would have granted. */
  lemma CaapFields(e: CaapEvent)
    ensures Denotes(StagedPairs(e), map["requested" := Int(e.requested)]["granted" := Int(e.granted)]
                                       ["granted-staged" := Int(e.staged)])
  {
    hide B;
    hide Latin;
    hide Good;
    hide Denotes;
    AccessNames();
    EmptyIsGood();
    var t := Put(EMPTY, "requested", Some(Int(e.requested)));
    t := Put(t, "granted", Some(Int(e.granted)));
    t := Put(t, "granted-staged", Some(Int(e.staged)));
    assert t.ps == StagedPairs(e);
    DraftDenotes(t);
  }

  lemma PolicyFields(phase: Bytes, sid: Bytes, rule: u32)
    ensures Denotes(PolicyPairs(phase, sid, rule), map["policy" := Map([Pair(B("sid"), Bin(sid))])]
                                                      ["rule" := Map([Pair(B("index"), Int(rule))])]
                                                      ["phase" := Str(phase)])
  {
    hide B;
    hide Latin;
    hide Good;
    hide Denotes;
    OtherNames();
    EmptyIsGood();
    var t := Put(EMPTY, "policy", Some(Map([Pair(B("sid"), Bin(sid))])));
    t := Put(t, "rule", Some(Map([Pair(B("index"), Int(rule))])));
    t := Put(t, "phase", Some(Str(phase)));
    assert t.ps == PolicyPairs(phase, sid, rule);
    DraftDenotes(t);
  }

  lemma CaapRecordFields(e: CaapEvent, m: CheckMaps, v: CheckValues)
    requires CaapComplete(e)
    ensures
      && CaapValue(e, m, v).Map?
      && var head := Also(map["subject" := v.subject]["emitter" := v.emitter], "object", v.object_);
         var why := if e.kind.SaclError?
                    then head["caap" := Map(PolicyPairs(e.phase.value, e.policySid.value, e.ruleIndex.value))]
                             ["outcome" := Map([Pair(B("reason"), Str(e.reason))])]
                    else head;
         Denotes(CaapValue(e, m, v).pairs,
                 Also(why["access" := Map(StagedPairs(e))], "fields", FromUserspace(m.asserted)))
  {
    hide B;
    hide Latin;
    hide Good;
    hide Denotes;
    hide StagedPairs;
    hide PolicyPairs;
    hide HeadPairs;
    RecordNames();
    var t := Head(v);
    if e.kind.SaclError? {
      t := Put(t, "caap", Some(Map(PolicyPairs(e.phase.value, e.policySid.value, e.ruleIndex.value))));
      t := Put(t, "outcome", Some(Map([Pair(B("reason"), Str(e.reason))])));
    }
    t := Put(t, "access", Some(Map(StagedPairs(e))));
    t := Put(t, "fields", FromUserspace(m.asserted));
    assert t.ps == CaapValue(e, m, v).pairs;
    DraftDenotes(t);
  }

  // ----- handles, impersonation, descriptors -----

  /** `kacs.audit.handle.used`: what the operation needed, what of it was audited, what
      the handle was opened with and what is audited on it are four different masks. */
  lemma HandleAccessFields(h: HandleUse)
    ensures Denotes(HandleAccessPairs(h), map["requested" := Int(h.requested)]["matched" := Int(h.matched)]
                                             ["granted" := Int(h.granted)]["audit-mask" := Int(h.auditMask)])
  {
    hide B;
    hide Latin;
    hide Good;
    hide Denotes;
    AccessNames();
    EmptyIsGood();
    var t := Put(EMPTY, "requested", Some(Int(h.requested)));
    t := Put(t, "matched", Some(Int(h.matched)));
    t := Put(t, "granted", Some(Int(h.granted)));
    t := Put(t, "audit-mask", Some(Int(h.auditMask)));
    assert t.ps == HandleAccessPairs(h);
    DraftDenotes(t);
  }

  function FileAt(path: Option<Bytes>): Option<Value> {
    if path.Some? then Some(Map([Pair(B("path"), Str(path.value))])) else None
  }

  lemma HandleObjectFields(h: HandleUse)
    ensures Denotes(FilePairs(h.path), Also(map["kind" := Str(B("file"))], "file", FileAt(h.path)))
  {
    hide B;
    hide Latin;
    hide Good;
    hide Denotes;
    AccessNames();
    OtherNames();
    EmptyIsGood();
    var t := Put(EMPTY, "kind", Some(Str(B("file"))));
    t := Put(t, "file", FileAt(h.path));
    assert t.ps == FilePairs(h.path);
    DraftDenotes(t);
  }

  /** A reason goes with a failure only, and only for the codes that are reasons. */
  lemma HandleOutcomeFields(h: HandleUse)
    ensures Denotes(HandleOutcomePairs(h),
                    Also(map["success" := Bool(h.success)], "reason",
                         if h.success then None else Texted(FailureReason(h.reason))))
  {
    hide B;
    hide Latin;
    hide Good;
    hide Denotes;
    hide FailureReason;
    OtherNames();
    EmptyIsGood();
    var t := Put(EMPTY, "success", Some(Bool(h.success)));
    t := Put(t, "reason", if h.success then None else Texted(FailureReason(h.reason)));
    assert t.ps == HandleOutcomePairs(h);
    DraftDenotes(t);
  }

  lemma HandleRecordFields(h: HandleUse, subject: Value, emitter: Value)
    ensures
      && HandleUsedValue(h, subject, emitter).Map?
      && Denotes(HandleUsedValue(h, subject, emitter).pairs,
                 map["subject" := subject]["emitter" := emitter]["object" := Map(FilePairs(h.path))]
                    ["operation" := Map([Pair(B("name"), Str(h.operation))])]
                    ["access" := Map(HandleAccessPairs(h))]["outcome" := Map(HandleOutcomePairs(h))])
  {
    hide B;
    hide Latin;
    hide Good;
    hide Denotes;
    hide FilePairs;
    hide HandleAccessPairs;
    hide HandleOutcomePairs;
    RecordNames();
    EmptyIsGood();
    var t := Put(EMPTY, "subject", Some(subject));
    t := Put(t, "emitter", Some(emitter));
    t := Put(t, "object", Some(Map(FilePairs(h.path))));
    t := Put(t, "operation", Some(Map([Pair(B("name"), Str(h.operation))])));
    t := Put(t, "access", Some(Map(HandleAccessPairs(h))));
    t := Put(t, "outcome", Some(Map(HandleOutcomePairs(h))));
    assert t.ps == HandleUsedValue(h, subject, emitter).pairs;
    DraftDenotes(t);
  }

  /** `outcome`: an error number, and a reason if there is one, exactly on failure. */
  lemma OutcomeFields(errno: i32, reason: Option<Bytes>)
    ensures Denotes(OutcomePairs(errno, reason),
                    if errno == 0 then map["success" := Bool(true)]
                    else Also(map["success" := Bool(false)]["errno" := Int(errno)], "reason", Texted(reason)))
  {
    hide B;
    hide Latin;
    hide Good;
    hide Denotes;
    OtherNames();
    EmptyIsGood();
    var t := Put(EMPTY, "success", Some(Bool(errno == 0)));
    if errno != 0 {
      t := Put(t, "errno", Some(Int(errno)));
      t := Put(t, "reason", Texted(reason));
    }
    assert t.ps == OutcomePairs(errno, reason);
    DraftDenotes(t);
  }

  /** `kacs.impersonation.started`: the client's token, with the level it asked for and
      the one it was permitted. */
  lemma ClientFields(c: Client)
    ensures
      Denotes(ClientPairs(c),
              Also(Also(map["guid" := Bin(c.guid)]["id" := Int(c.id)]["sid" := Bin(c.sid)]["type" := KindText(c.kind)]
                           ["integrity" := Int(c.integrity)],
                        "auth-id", Numbered(c.auth))
                   ["restricted" := Bool(c.restricted)]["impersonation" := LevelNumber(c.kind, c.requested)],
                   "impersonation-permitted", Numbered(c.permitted)))
  {
    hide B;
    hide Latin;
    hide Good;
    hide Denotes;
    SubjectNames();
    ProcessNames();
    var t := ClientStart(c);
    t := Put(t, "auth-id", Numbered(c.auth));
    t := Put(t, "restricted", Some(Bool(c.restricted)));
    t := Put(t, "impersonation", Some(LevelNumber(c.kind, c.requested)));
    t := Put(t, "impersonation-permitted", Numbered(c.permitted));
    assert t.ps == ClientPairs(c);
    DraftDenotes(t);
  }

  lemma ClientStart(c: Client) returns (t: Draft)
    ensures Good(t) && t.names == {"guid", "id", "sid", "type", "integrity"}
    ensures t.ps == [Pair(B("guid"), Bin(c.guid))] + [Pair(B("id"), Int(c.id))] + [Pair(B("sid"), Bin(c.sid))] +
                    [Pair(B("type"), KindText(c.kind))] + [Pair(B("integrity"), Int(c.integrity))]
    ensures t.d == map["guid" := Bin(c.guid)]["id" := Int(c.id)]["sid" := Bin(c.sid)]["type" := KindText(c.kind)]
                      ["integrity" := Int(c.integrity)]
  {
    hide B;
    hide Latin;
    hide Good;
    hide Denotes;
    hide KindText;
    SubjectNames();
    ProcessNames();
    EmptyIsGood();
    t := Put(EMPTY, "guid", Some(Bin(c.guid)));
    t := Put(t, "id", Some(Int(c.id)));
    t := Put(t, "sid", Some(Bin(c.sid)));
    t := Put(t, "type", Some(KindText(c.kind)));
    t := Put(t, "integrity", Some(Int(c.integrity)));
  }

  /** The privilege is reported as held exactly if it was used. */
  lemma ImpersonationFields(c: Client, errno: i32, reason: Option<Bytes>, subject: Value, emitter: Value)
    ensures
      && ImpersonationValue(c, errno, reason, subject, emitter).Map?
      && Denotes(ImpersonationValue(c, errno, reason, subject, emitter).pairs,
                 Also(map["subject" := subject]["emitter" := emitter]["object" := Map(ClientObject(c))],
                      "privilege", if c.usedImpersonate then Some(Map(UsedPairs())) else None)
                 ["outcome" := Map(OutcomePairs(errno, reason))])
  {
    hide B;
    hide Latin;
    hide Good;
    hide Denotes;
    hide ClientObject;
    hide UsedPairs;
    hide OutcomePairs;
    RecordNames();
    EmptyIsGood();
    var t := Put(EMPTY, "subject", Some(subject));
    t := Put(t, "emitter", Some(emitter));
    t := Put(t, "object", Some(Map(ClientObject(c))));
    t := Put(t, "privilege", if c.usedImpersonate then Some(Map(UsedPairs())) else None);
    t := Put(t, "outcome", Some(Map(OutcomePairs(errno, reason))));
    assert t.ps == ImpersonationValue(c, errno, reason, subject, emitter).pairs;
    DraftDenotes(t);
  }

  function LengthOf(f: Option<Facts>): Option<Value> {
    if f.Some? then Some(Int(f.value.len)) else None
  }

  function DigestOf(f: Option<Facts>): Option<Value> {
    if f.Some? then Some(Bin(f.value.digest)) else None
  }

  function OwnerOf(f: Option<Facts>): Option<Value> {
    if f.Some? && f.value.owner.Some? then Some(Bin(f.value.owner.value)) else None
  }

  /** `object.sd` of a descriptor change: the new descriptor's facts under the plain
      names, the old one's under those with `-previous`. */
  lemma DescriptorFields(c: Change)
    ensures
      Denotes(SdPairs(c),
              Also(Also(Also(Also(Also(Also(map["components" := Int(c.components)],
                   "length", LengthOf(c.current)), "digest", DigestOf(c.current)), "owner", OwnerOf(c.current)),
                   "length-previous", LengthOf(c.previous)), "digest-previous", DigestOf(c.previous)),
                   "owner-previous", OwnerOf(c.previous)))
  {
    hide B;
    hide Latin;
    hide Good;
    hide Denotes;
    hide LengthOf;
    hide DigestOf;
    hide OwnerOf;
    hide SidePairs;
    DescriptorNames();
    EmptyIsGood();
    var t := Put(EMPTY, "components", Some(Int(c.components)));
    t := PutSide(t, c.current, "", "length", "digest", "owner");
    t := PutSide(t, c.previous, "-previous", "length-previous", "digest-previous", "owner-previous");
    assert t.ps == SdPairs(c);
    DraftDenotes(t);
  }

  lemma PutSide(t: Draft, f: Option<Facts>, suffix: string, length: string, digest: string, owner: string)
    returns (r: Draft)
    requires Good(t) && Latin(length) && Latin(digest) && Latin(owner)
    requires length == "length" + suffix && digest == "digest" + suffix && owner == "owner" + suffix
    requires length !in t.names && digest !in t.names && owner !in t.names
    ensures Good(r) && r.ps == t.ps + SidePairs(f, suffix) && r.names == t.names + {length, digest, owner}
    ensures r.d == Also(Also(Also(t.d, length, LengthOf(f)), digest, DigestOf(f)), owner, OwnerOf(f))
  {
    hide B;
    hide Latin;
    hide Good;
    assert length[0] == 'l' && digest[0] == 'd' && owner[0] == 'o';
    r := Put(t, length, LengthOf(f));
    r := Put(r, digest, DigestOf(f));
    r := Put(r, owner, OwnerOf(f));
  }

  // ----- StrataFS -----

  /** A path that only the full record has. */
  function InFull(path: Bytes, reduced: bool): Option<Bytes> {
    if reduced then None else Some(path)
  }

  /** The object's path is reported from the root of the stack: with one slash in front,
      unless it has one. */
  lemma ObjectFields(relative: Bytes)
    ensures
      exists path ::
        && ObjectPair(relative) == Pair(B("object"), Map([Pair(B("file"), Map([Pair(B("path-relative"), Str(path))]))]))
        && path != [] && path[0] == 0x2f
        && (path == relative || path[1..] == relative)
        && (path == relative <==> relative != [] && relative[0] == 0x2f)
  {
    hide B;
    var path := Slashed(relative);
    assert |path| == |relative| || |path| == |relative| + 1;
    assert relative != [] && relative[0] == 0x2f ==> path == relative;
    assert !(relative != [] && relative[0] == 0x2f) ==> path == [0x2f] + relative && path[1..] == relative;
  }

  /** A stratum: its place in the stack, and where it is in the full form. */
  lemma StratumFields(role: string, index: u32, path: Option<Bytes>)
    ensures
      var body := [Pair(B("index"), Int(index))] + PathPairs(path);
      && StratumPair(role, index, path) == Pair(B(role), Map([Pair(B("stratum"), Map(body))]))
      && Denotes(body, Also(map["index" := Int(index)], "path", Texted(path)))
  {
    hide B;
    hide Latin;
    hide Good;
    hide Denotes;
    StrataNames();
    EmptyIsGood();
    var t := Put(EMPTY, "index", Some(Int(index)));
    t := Put(t, "path", Texted(path));
    assert t.ps == [Pair(B("index"), Int(index))] + PathPairs(path);
    DraftDenotes(t);
  }

  lemma CopyUpOutcomeFields(result: i32)
    ensures
      && CopyUpOutcomePair(result).value.Map?
      && Denotes(CopyUpOutcomePair(result).value.pairs,
                 if result < 0 then map["success" := Bool(false)]["errno" := Int(result)]
                 else map["success" := Bool(true)])
  {
    hide B;
    hide Latin;
    hide Good;
    hide Denotes;
    OtherNames();
    EmptyIsGood();
    var t := Put(EMPTY, "success", Some(Bool(result >= 0)));
    if result < 0 {
      t := Put(t, "errno", Some(Int(result)));
    }
    assert t.ps == CopyUpOutcomePair(result).value.pairs;
    DraftDenotes(t);
  }

  /** `stratafs.file.copied-up`: source and destination are told apart, and an error number
      goes with failure only. */
  lemma CopyUpFields(c: CopyUpRecord, reduced: bool)
    ensures
      && CopyUpValue(c, reduced).Map?
      && Denotes(CopyUpValue(c, reduced).pairs,
                 Also(map[], "object", if reduced then None else Some(ObjectPair(c.relative).value))
                 ["source" := StratumPair("source", c.providerIndex, InFull(c.provider, reduced)).value]
                 ["destination" := StratumPair("destination", c.createIndex, InFull(c.create, reduced)).value]
                 ["outcome" := CopyUpOutcomePair(c.result).value])
  {
    hide B;
    hide Latin;
    hide Good;
    hide Denotes;
    hide Slashed;
    RecordNames();
    StrataNames();
    EmptyIsGood();
    var t := Put(EMPTY, "object", if reduced then None else Some(ObjectPair(c.relative).value));
    t := Put(t, "source", Some(StratumPair("source", c.providerIndex, Kept(c.provider, reduced)).value));
    t := Put(t, "destination", Some(StratumPair("destination", c.createIndex, Kept(c.create, reduced)).value));
    t := Put(t, "outcome", Some(CopyUpOutcomePair(c.result).value));
    assert t.ps == CopyUpValue(c, reduced).pairs;
    DraftDenotes(t);
  }

  /** `stratafs.mutation.refused`: the provider only if there is one, its path and the
      object's only in the full form. */
  lemma RefusalFields(c: Refusal, reduced: bool)
    ensures
      && RefusalValue(c, reduced).Map?
      && Denotes(RefusalValue(c, reduced).pairs,
                 Also(Also(map[], "object", if reduced then None else Some(ObjectPair(c.relative).value))
                      ["operation" := Map([Pair(B("name"), Str(c.operation))])],
                      "source", if c.provider.None? then None
                                else Some(StratumPair("source", c.index, InFull(c.provider.value, reduced)).value))
                 ["outcome" := Map([Pair(B("errno"), Int(c.result))] + [Pair(B("deferred"), Bool(c.deferred))])])
  {
    hide B;
    hide Latin;
    hide Good;
    hide Denotes;
    hide Slashed;
    RecordNames();
    StrataNames();
    EmptyIsGood();
    var t := Put(EMPTY, "object", if reduced then None else Some(ObjectPair(c.relative).value));
    t := Put(t, "operation", Some(Map([Pair(B("name"), Str(c.operation))])));
    t := Put(t, "source", if c.provider.None? then None
                          else Some(StratumPair("source", c.index, Kept(c.provider.value, reduced)).value));
    t := Put(t, "outcome", Some(Map([Pair(B("errno"), Int(c.result))] + [Pair(B("deferred"), Bool(c.deferred))])));
    assert t.ps == RefusalValue(c, reduced).pairs;
    DraftDenotes(t);
  }
}
