/** What a managed file handle's frozen grant admits, over every sequence of write,
    flag, truncation, allocation and mapping operations on the handles of a task. */
module HandleGrants {
  import opened Widths

  datatype Right = ReadData | WriteData | AppendData | Traverse | ReadAttributes | WriteAttributes | OtherRight(n: nat)

  const DATA_RIGHTS := {ReadData, WriteData, AppendData}

  datatype Handle = Handle(
    managed: bool,
    granted: set<Right>,
    auditMask: set<Right>,
    append: bool,
    noatime: bool,
    pathOnly: bool)

  datatype Rwf = Rwf(append: bool, noappend: bool)

  /** A task's single write-intent marker. */
  datatype Marker = Marker(file: nat, flags: Rwf, positioned: bool)

  datatype State = State(handles: seq<Handle>, marker: Option<Marker>)

  datatype Access = MayRead | MayWrite | MayAppend | MayExec | MayChdir

  datatype Prot = ProtRead | ProtWrite | ProtExec

  datatype FallocMode =
    | AllocateRange | UnshareRange | PunchHole | ZeroRange | CollapseRange | InsertRange | WriteZeroes | UnknownMode

  /** What else decides an operation: whether the signed-executable gate passes, what
      an unmanaged handle is allowed, and how the audit emission ends.  Error codes
      are nonzero. */
  datatype Gate = Gate(contentOk: bool, unmanagedOk: bool, audit: Audit)

  datatype Audit = AuditOff | NoToken | PipFailed(pip: Errno) | EmitFailed(emit: Errno) | Emitted

  type Errno = e: int | e != 0 witness -1

  const EACCES: int := -13
  const EBADF: int := -9

  /** What an fcntl command other than F_SETFL asks of the grant; READ_DATA on a
      directory is the right to list it, which is what notification needs. */
  datatype Requirement = NeedsNothing | NeedsAnyData | Needs(right: Right) | Refused

  /** `rwf` on a permission check is what the write that follows really carries; the
      check itself never sees it. */
  datatype Op =
    | BeginIntent(f: nat, flags: Rwf, positioned: bool)
    | EndIntent
    | Permission(f: nat, mask: set<Access>, rwf: Rwf, gate: Gate)
    | SetFlags(f: nat, toAppend: bool, toNoatime: bool, gate: Gate)
    | OtherFcntl(f: nat, need: Requirement, gate: Gate)
    | Truncate(f: nat, gate: Gate)
    | Fallocate(f: nat, mode: FallocMode, keepSize: bool, stray: bool, gate: Gate)
    | Map(f: nat, prot: set<Prot>, shared: bool, gate: Gate)
    | Protect(f: nat, prot: set<Prot>, shared: bool, gate: Gate)

  /** What an admitted operation does to the file. */
  datatype Effect =
    | Nothing
    | Wrote(append: bool)
    | FlagsSet(append: bool)
    | Truncated
    | Allocated
    | Rewrote
    | Mapped(sharedWritable: bool)

  datatype Outcome = Outcome(state: State, code: int, effect: Effect)

  // ----- continuous audit -----

  /** The decision after the audit record for `required` was emitted, or not. */
  function EmitAudit(h: Handle, required: set<Right>, decision: int, audit: Audit): int {
    if required == {} || !h.managed then decision
    else if audit.AuditOff? || h.auditMask * required == {} then decision
    else match audit
      case AuditOff => decision
      case NoToken => if decision != 0 then decision else EACCES
      case PipFailed(e) => e
      case EmitFailed(e) => e
      case Emitted => decision
  }

  /** Emission can refuse what was granted; it never grants what was refused. */
  lemma AuditNeverGrants(h: Handle, required: set<Right>, decision: int, audit: Audit)
    ensures EmitAudit(h, required, decision, audit) == 0 ==> decision == 0
  {}

  // ----- decisions -----

  function Deny(refused: bool): int {
    if refused then EACCES else 0
  }

  predicate AppendIntent(h: Handle, flags: Rwf) {
    !flags.noappend && (flags.append || h.append)
  }

  function WriteIntent(h: Handle, flags: Rwf, positioned: bool, gate: Gate): int {
    if h.pathOnly then EBADF
    else if !gate.contentOk then EACCES
    else if !h.managed then Deny(!gate.unmanagedOk)
    else if flags.append && flags.noappend then EACCES
    else if flags.noappend || (positioned && !AppendIntent(h, flags)) then
      EmitAudit(h, {WriteData}, Deny(WriteData !in h.granted), gate.audit)
    else if AppendIntent(h, flags) then
      EmitAudit(h, {WriteData, AppendData}, Deny(h.granted * {WriteData, AppendData} == {}), gate.audit)
    else EmitAudit(h, {WriteData}, Deny(WriteData !in h.granted), gate.audit)
  }

  function ReadPart(mask: set<Access>): set<Right> {
    (if MayRead in mask then {ReadData} else {}) + (if MayExec in mask || MayChdir in mask then {Traverse} else {})
  }

  /** A caller's `MAY_APPEND` declares an append, as the handle's own flag does. */
  predicate DeclaresAppend(h: Handle, mask: set<Access>) {
    MayAppend in mask || (MayWrite in mask && h.append)
  }

  /** The permission check: the state after it and its answer. */
  function CheckPermission(s: State, f: nat, mask: set<Access>, gate: Gate): (State, int)
    requires f < |s.handles|
  {
    var h := s.handles[f];
    var write, append := MayWrite in mask, DeclaresAppend(h, mask);
    var needed := ReadPart(mask);
    if (write || append) && !gate.contentOk then (s, EACCES)
    else if !h.managed then (s, Deny((write || append) && !gate.unmanagedOk))
    else if !(needed <= h.granted) then (s, EmitAudit(h, needed, EACCES, gate.audit))
    else if write && s.marker.Some? then
      var m := s.marker.value;
      if m.file != f then (s, EACCES) else (s.(marker := None), WriteIntent(h, m.flags, m.positioned, gate))
    else
      var refused := if append then h.granted * {WriteData, AppendData} == {} else write && WriteData !in h.granted;
      var audited := needed + (if append then {WriteData, AppendData} else if write then {WriteData} else {});
      (s, EmitAudit(h, audited, Deny(refused), gate.audit))
  }

  /** What the checked operation then does: a write lands at the end of the file
      exactly when its own flags and the handle's say so, whatever was declared. */
  function PermissionEffect(h: Handle, mask: set<Access>, rwf: Rwf): Effect {
    if MayWrite in mask || MayAppend in mask then Wrote(AppendIntent(h, rwf)) else Nothing
  }

  function CheckSetFlags(s: State, f: nat, toAppend: bool, toNoatime: bool, gate: Gate): Outcome
    requires f < |s.handles|
  {
    var h := s.handles[f];
    var after := s.(handles := s.handles[f := h.(append := toAppend, noatime := toNoatime)]);
    if !h.managed then Outcome(after, 0, FlagsSet(toAppend))
    else
      var clears, sets := h.append && !toAppend, !h.noatime && toNoatime;
      var required := (if clears then {WriteData} else {}) + (if sets then {WriteAttributes} else {});
      var refused := (clears && AppendData in h.granted && WriteData !in h.granted) ||
                     (sets && WriteAttributes !in h.granted);
      var code := EmitAudit(h, required, Deny(refused), gate.audit);
      if code == 0 then Outcome(after, 0, FlagsSet(toAppend)) else Outcome(s, code, Nothing)
  }

  function CheckFcntl(h: Handle, need: Requirement, gate: Gate): int {
    if !h.managed then 0
    else match need
      case NeedsNothing => 0
      case NeedsAnyData => EmitAudit(h, DATA_RIGHTS, Deny(h.granted * DATA_RIGHTS == {}), gate.audit)
      case Needs(right) => EmitAudit(h, {right}, Deny(right !in h.granted), gate.audit)
      case Refused => EACCES
  }

  function CheckTruncate(h: Handle, gate: Gate): int {
    if !gate.contentOk then EACCES
    else if !h.managed then 0
    else EmitAudit(h, {WriteData}, Deny(WriteData !in h.granted), gate.audit)
  }

  predicate ModeSupported(mode: FallocMode, keepSize: bool, stray: bool) {
    !stray && match mode
      case AllocateRange | UnshareRange | ZeroRange => true
      case PunchHole => keepSize
      case CollapseRange | InsertRange | WriteZeroes => !keepSize
      case UnknownMode => false
  }

  function CheckFallocate(h: Handle, mode: FallocMode, keepSize: bool, stray: bool, gate: Gate): int {
    if !gate.contentOk then EACCES
    else if !h.managed then 0
    else if !ModeSupported(mode, keepSize, stray) then EACCES
    else if !mode.AllocateRange? then EmitAudit(h, {WriteData}, Deny(WriteData !in h.granted), gate.audit)
    else EmitAudit(h, {WriteData, AppendData}, Deny(h.granted * {WriteData, AppendData} == {}), gate.audit)
  }

  function MappingNeeds(prot: set<Prot>, shared: bool): set<Right> {
    (if ProtRead in prot then {ReadData} else {}) +
    (if ProtExec in prot then {Traverse} else {}) +
    (if ProtWrite in prot then (if shared then {WriteData} else {ReadData}) else {})
  }

  function CheckGrant(h: Handle, required: set<Right>, gate: Gate): int {
    if required == {} then 0
    else if !h.managed then Deny(!gate.unmanagedOk)
    else EmitAudit(h, required, Deny(!(required <= h.granted)), gate.audit)
  }

  function CheckMapping(s: State, f: nat, prot: set<Prot>, shared: bool, remap: bool, gate: Gate): Outcome
    requires f < |s.handles|
  {
    var h := s.handles[f];
    if !remap && h.pathOnly then Outcome(s, EBADF, Nothing)
    else
      var code := CheckGrant(h, MappingNeeds(prot, shared), gate);
      Outcome(s, code, if code == 0 then Mapped(shared && ProtWrite in prot) else Nothing)
  }

  function Bare(s: State, code: int, effect: Effect): Outcome {
    Outcome(s, code, if code == 0 then effect else Nothing)
  }

  /** One operation; an operation on no handle is refused. */
  function Do(s: State, op: Op): Outcome {
    if op.EndIntent? then Outcome(s.(marker := None), 0, Nothing)
    else if op.f >= |s.handles| then Outcome(s, EACCES, Nothing)
    else
      var h := s.handles[op.f];
      match op
      case BeginIntent(f, flags, positioned) =>
        if s.marker.Some? then Outcome(s, EACCES, Nothing)
        else Outcome(s.(marker := Some(Marker(f, flags, positioned))), 0, Nothing)
      case Permission(f, mask, rwf, gate) =>
        var (after, code) := CheckPermission(s, f, mask, gate);
        Bare(after, code, PermissionEffect(h, mask, rwf))
      case SetFlags(f, toAppend, toNoatime, gate) => CheckSetFlags(s, f, toAppend, toNoatime, gate)
      case OtherFcntl(f, need, gate) => Outcome(s, CheckFcntl(h, need, gate), Nothing)
      case Truncate(f, gate) => Bare(s, CheckTruncate(h, gate), Truncated)
      case Fallocate(f, mode, keepSize, stray, gate) =>
        Bare(s, CheckFallocate(h, mode, keepSize, stray, gate), if mode.AllocateRange? then Allocated else Rewrote)
      case Map(f, prot, shared, gate) => CheckMapping(s, f, prot, shared, false, gate)
      case Protect(f, prot, shared, gate) => CheckMapping(s, f, prot, shared, true, gate)
  }

  // ----- what a grant means -----

  /** An effect that changes bytes already in the file. */
  predicate Destructive(e: Effect) {
    match e
    case Wrote(append) => !append
    case Truncated | Rewrote => true
    case Mapped(sharedWritable) => sharedWritable
    case _ => false
  }

  /** The check was told of an append, by the marker's flags if a marker decides it and
      otherwise by the mask or the handle's own flag, and the write is none. */
  predicate DeclaredOnly(s: State, f: nat, mask: set<Access>, rwf: Rwf)
    requires f < |s.handles|
  {
    var h := s.handles[f];
    && !AppendIntent(h, rwf)
    && if MayWrite in mask && s.marker.Some? then s.marker.value.file == f && AppendIntent(h, s.marker.value.flags)
       else DeclaresAppend(h, mask)
  }

  /** On a managed handle nothing destructive is admitted without WRITE_DATA, except a
      write that was declared an append and is none. */
  lemma DestructionNeedsWriteData(s: State, op: Op)
    requires !op.EndIntent? && op.f < |s.handles| && s.handles[op.f].managed
    requires Destructive(Do(s, op).effect)
    ensures WriteData in s.handles[op.f].granted || (op.Permission? && DeclaredOnly(s, op.f, op.mask, op.rwf))
  {
    hide EmitAudit;
    var h := s.handles[op.f];
    match op {
      case Permission(f, mask, rwf, gate) => WriteNeedsWriteData(s, f, mask, rwf, gate);
      case Truncate(f, gate) => AuditNeverGrants(h, {WriteData}, Deny(WriteData !in h.granted), gate.audit);
      case Fallocate(f, mode, keepSize, stray, gate) =>
        AuditNeverGrants(h, {WriteData}, Deny(WriteData !in h.granted), gate.audit);
      case Map(f, prot, shared, gate) => MappingNeedsWriteData(h, prot, shared, gate);
      case Protect(f, prot, shared, gate) => MappingNeedsWriteData(h, prot, shared, gate);
      case _ =>
    }
  }

  lemma WriteNeedsWriteData(s: State, f: nat, mask: set<Access>, rwf: Rwf, gate: Gate)
    requires f < |s.handles| && s.handles[f].managed && CheckPermission(s, f, mask, gate).1 == 0
    requires PermissionEffect(s.handles[f], mask, rwf) == Wrote(false)
    ensures WriteData in s.handles[f].granted || DeclaredOnly(s, f, mask, rwf)
  {
    hide EmitAudit;
    var h := s.handles[f];
    AuditNeverGrants(h, {WriteData}, Deny(WriteData !in h.granted), gate.audit);
    AuditNeverGrants(h, ReadPart(mask) + {WriteData}, Deny(WriteData !in h.granted), gate.audit);
    AuditNeverGrants(h, ReadPart(mask), EACCES, gate.audit);
  }

  lemma MappingNeedsWriteData(h: Handle, prot: set<Prot>, shared: bool, gate: Gate)
    requires h.managed && shared && ProtWrite in prot && CheckGrant(h, MappingNeeds(prot, shared), gate) == 0
    ensures WriteData in h.granted
  {
    hide EmitAudit;
    var required := MappingNeeds(prot, shared);
    assert WriteData in required;
    AuditNeverGrants(h, required, Deny(!(required <= h.granted)), gate.audit);
  }

  predicate AppendOnly(h: Handle) {
    h.managed && AppendData in h.granted && WriteData !in h.granted
  }

  /** The grant is frozen: no operation changes it, and on an append-only handle
      none clears `O_APPEND`. */
  lemma GrantIsFrozen(s: State, op: Op, f: nat)
    requires f < |s.handles|
    ensures
      var r := Do(s, op).state;
      && |r.handles| == |s.handles|
      && r.handles[f] == s.handles[f].(append := r.handles[f].append, noatime := r.handles[f].noatime)
      && (AppendOnly(s.handles[f]) && s.handles[f].append ==> r.handles[f].append)
  {
    hide EmitAudit;
    if op.SetFlags? && op.f == f {
      var h := s.handles[f];
      var clears, sets := h.append && !op.toAppend, !h.noatime && op.toNoatime;
      var required := (if clears then {WriteData} else {}) + (if sets then {WriteAttributes} else {});
      AuditNeverGrants(h, required, EACCES, op.gate.audit);
    }
  }

  function Execute(s: State, ops: seq<Op>): State {
    if ops == [] then s else Do(Execute(s, ops[..|ops| - 1]), ops[|ops| - 1]).state
  }

  lemma {:induction false} StaysAppendOnly(s: State, ops: seq<Op>, f: nat)
    requires f < |s.handles| && AppendOnly(s.handles[f])
    ensures
      var r := Execute(s, ops);
      && |r.handles| == |s.handles| && AppendOnly(r.handles[f]) && r.handles[f].granted == s.handles[f].granted
      && (s.handles[f].append ==> r.handles[f].append)
  {
    hide Do;
    if ops != [] {
      StaysAppendOnly(s, ops[..|ops| - 1], f);
      GrantIsFrozen(Execute(s, ops[..|ops| - 1]), ops[|ops| - 1], f);
    }
  }

  /** The other gates of a check that is told of an append: the executable gate, the
      rights for what else is asked, and an audit record that gets out. */
  predicate GatesPass(s: State, f: nat, mask: set<Access>, gate: Gate)
    requires f < |s.handles|
  {
    var h := s.handles[f];
    && gate.contentOk && ReadPart(mask) <= h.granted
    && if MayWrite in mask && s.marker.Some? then
         && !h.pathOnly && !(s.marker.value.flags.append && s.marker.value.flags.noappend)
         && EmitAudit(h, {WriteData, AppendData}, 0, gate.audit) == 0
       else EmitAudit(h, ReadPart(mask) + {WriteData, AppendData}, 0, gate.audit) == 0
  }

  /** On an append-only handle a write that does not append is admitted if and only if
      it was declared an append, and the other gates pass. */
  lemma NonAppendAdmittedIff(s: State, f: nat, mask: set<Access>, rwf: Rwf, gate: Gate)
    requires f < |s.handles| && AppendOnly(s.handles[f])
    ensures
      Do(s, Permission(f, mask, rwf, gate)).effect == Wrote(false) <==>
      DeclaredOnly(s, f, mask, rwf) && GatesPass(s, f, mask, gate)
  {
    var h := s.handles[f];
    assert AppendData in h.granted * {WriteData, AppendData};
    if Do(s, Permission(f, mask, rwf, gate)).effect == Wrote(false) {
      WriteNeedsWriteData(s, f, mask, rwf, gate);
      AuditNeverGrants(h, ReadPart(mask), EACCES, gate.audit);
    }
  }

  /** Whatever was done before, and by whichever handle: through an append-only handle
      no truncation, range-destroying allocation or shared writable mapping is ever
      admitted, its `O_APPEND` stays set, and a write that does not append is admitted
      exactly when it was declared an append and the other gates pass. */
  lemma AppendOnlyForever(s: State, ops: seq<Op>, op: Op)
    requires !op.EndIntent? && op.f < |s.handles| && AppendOnly(s.handles[op.f])
    ensures
      var r := Execute(s, ops);
      && op.f < |r.handles|
      && (Destructive(Do(r, op).effect) <==>
          op.Permission? && DeclaredOnly(r, op.f, op.mask, op.rwf) && GatesPass(r, op.f, op.mask, op.gate))
      && (s.handles[op.f].append ==> r.handles[op.f].append && Do(r, op).effect != FlagsSet(false))
  {
    StaysAppendOnly(s, ops, op.f);
    var r := Execute(s, ops);
    hide Execute;
    if op.Permission? {
      hide GatesPass;
      hide DeclaredOnly;
      hide CheckPermission;
      NonAppendAdmittedIff(r, op.f, op.mask, op.rwf, op.gate);
    } else if Destructive(Do(r, op).effect) {
      DestructionNeedsWriteData(r, op);
    }
    if r.handles[op.f].append {
      StillAppending(r, op);
    }
  }

  /** A write whose path first begins an intent with the write's own flags, as every
      vectored and positioned write does, is never admitted on an append-only handle
      unless it appends. */
  lemma IntendedWriteAppends(s: State, ops: seq<Op>, f: nat, rwf: Rwf, positioned: bool, mask: set<Access>, gate: Gate)
    requires f < |s.handles| && AppendOnly(s.handles[f]) && MayWrite in mask
    ensures
      var begun := Do(Execute(s, ops), BeginIntent(f, rwf, positioned));
      begun.code == 0 ==> Do(begun.state, Permission(f, mask, rwf, gate)).effect != Wrote(false)
  {
    StaysAppendOnly(s, ops, f);
    var begun := Do(Execute(s, ops), BeginIntent(f, rwf, positioned));
    hide Execute;
    if begun.code == 0 {
      NonAppendAdmittedIff(begun.state, f, mask, rwf, gate);
    }
  }

  const OPEN_GATE := Gate(true, true, AuditOff)

  /** Two writes that do not append and are admitted on append-only handles: one whose
      caller passes `MAY_APPEND` although the handle has no `O_APPEND`, and one with
      `RWF_NOAPPEND` that reaches the check without an intent. */
  lemma DeclaredAppendsAdmitted(auditMask: set<Right>)
    ensures
      var plain := Handle(true, {AppendData}, auditMask, false, false, false);
      var told := Permission(0, {MayWrite, MayAppend}, Rwf(false, false), OPEN_GATE);
      AppendOnly(plain) && Do(State([plain], None), told).effect == Wrote(false)
    ensures
      var appending := Handle(true, {AppendData}, auditMask, true, false, false);
      var unintended := Permission(0, {MayWrite}, Rwf(false, true), OPEN_GATE);
      AppendOnly(appending) && Do(State([appending], None), unintended).effect == Wrote(false)
  {
    var plain := Handle(true, {AppendData}, auditMask, false, false, false);
    NonAppendAdmittedIff(State([plain], None), 0, {MayWrite, MayAppend}, Rwf(false, false), OPEN_GATE);
    NonAppendAdmittedIff(State([plain.(append := true)], None), 0, {MayWrite}, Rwf(false, true), OPEN_GATE);
  }

  lemma StillAppending(s: State, op: Op)
    requires !op.EndIntent? && op.f < |s.handles| && AppendOnly(s.handles[op.f]) && s.handles[op.f].append
    ensures Do(s, op).effect != FlagsSet(false)
  {
    hide EmitAudit;
    var h := s.handles[op.f];
    if op.SetFlags? && !op.toAppend {
      var sets := !h.noatime && op.toNoatime;
      AuditNeverGrants(h, {WriteData} + (if sets then {WriteAttributes} else {}), EACCES, op.gate.audit);
    }
  }

  // ----- what is admitted, exactly -----

  /** No audit record is due for a right that the operation asks, or it gets out. */
  predicate Heard(h: Handle, asked: set<Right>, audit: Audit) {
    audit.AuditOff? || audit.Emitted? || asked !! h.auditMask
  }

  lemma AuditIsHeard(h: Handle, asked: set<Right>, decision: int, audit: Audit)
    requires h.managed
    ensures EmitAudit(h, asked, decision, audit) == 0 <==> decision == 0 && Heard(h, asked, audit)
  {
    if h.auditMask * asked == {} {
      forall x | x in asked ensures x !in h.auditMask {
        assert x in h.auditMask ==> x in h.auditMask * asked;
      }
    }
  }

  predicate Moves(mask: set<Access>) {
    MayExec in mask || MayChdir in mask
  }

  predicate LookedFor(x: Right, mask: set<Access>) {
    (x == ReadData && MayRead in mask) || (x == Traverse && Moves(mask))
  }

  /** The rights a check of this mask asks beside those for writing. */
  function Looks(mask: set<Access>): set<Right> {
    set x | x in {ReadData, Traverse} && LookedFor(x, mask)
  }

  lemma ReadPartLooks(mask: set<Access>)
    ensures ReadPart(mask) == Looks(mask)
  {}

  /** A write with this intent: what the grant must hold. */
  predicate MayWriteSo(h: Handle, flags: Rwf, audit: Audit) {
    && !(flags.append && flags.noappend)
    && if !flags.noappend && (flags.append || h.append)
       then (WriteData in h.granted || AppendData in h.granted) && Heard(h, {WriteData, AppendData}, audit)
       else WriteData in h.granted && Heard(h, {WriteData}, audit)
  }

  /** What the grant of a managed handle must hold for a check of this mask. */
  predicate MayDo(s: State, f: nat, mask: set<Access>, gate: Gate)
    requires f < |s.handles|
  {
    var h := s.handles[f];
    && (MayRead in mask ==> ReadData in h.granted)
    && (Moves(mask) ==> Traverse in h.granted)
    && if MayWrite !in mask && MayAppend !in mask then Heard(h, Looks(mask), gate.audit)
       else
         && gate.contentOk
         && if MayWrite in mask && s.marker.Some?
            then s.marker.value.file == f && !h.pathOnly && MayWriteSo(h, s.marker.value.flags, gate.audit)
            else if MayAppend in mask || h.append
            then
              && (WriteData in h.granted || AppendData in h.granted)
              && Heard(h, Looks(mask) + {WriteData, AppendData}, gate.audit)
            else WriteData in h.granted && Heard(h, Looks(mask) + {WriteData}, gate.audit)
  }

  predicate MayMap(h: Handle, prot: set<Prot>, shared: bool, audit: Audit) {
    && (ProtRead in prot ==> ReadData in h.granted)
    && (ProtExec in prot ==> Traverse in h.granted)
    && (ProtWrite in prot ==> if shared then WriteData in h.granted else ReadData in h.granted)
    && (ProtRead in prot || (ProtWrite in prot && !shared) ==> Heard(h, {ReadData}, audit))
    && (ProtExec in prot ==> Heard(h, {Traverse}, audit))
    && (ProtWrite in prot && shared ==> Heard(h, {WriteData}, audit))
  }

  /** What a managed handle's grant admits. */
  predicate Permitted(s: State, op: Op)
    requires !op.EndIntent? && op.f < |s.handles|
  {
    var h := s.handles[op.f];
    match op
    case BeginIntent(_, _, _) => s.marker.None?
    case Permission(f, mask, _, gate) => MayDo(s, f, mask, gate)
    case SetFlags(_, toAppend, toNoatime, gate) =>
      && (h.append && !toAppend ==>
            (AppendData in h.granted ==> WriteData in h.granted) && Heard(h, {WriteData}, gate.audit))
      && (!h.noatime && toNoatime ==> WriteAttributes in h.granted && Heard(h, {WriteAttributes}, gate.audit))
    case OtherFcntl(_, need, gate) =>
      (match need
       case NeedsNothing => true
       case NeedsAnyData =>
         && (ReadData in h.granted || WriteData in h.granted || AppendData in h.granted)
         && Heard(h, {ReadData, WriteData, AppendData}, gate.audit)
       case Needs(right) => right in h.granted && Heard(h, {right}, gate.audit)
       case Refused => false)
    case Truncate(_, gate) => gate.contentOk && WriteData in h.granted && Heard(h, {WriteData}, gate.audit)
    case Fallocate(_, mode, keepSize, stray, gate) =>
      && gate.contentOk && !stray && !mode.UnknownMode?
      && (mode.PunchHole? ==> keepSize)
      && (mode.CollapseRange? || mode.InsertRange? || mode.WriteZeroes? ==> !keepSize)
      && (if mode.AllocateRange?
          then (WriteData in h.granted || AppendData in h.granted) && Heard(h, {WriteData, AppendData}, gate.audit)
          else WriteData in h.granted && Heard(h, {WriteData}, gate.audit))
    case Map(_, prot, shared, gate) => !h.pathOnly && MayMap(h, prot, shared, gate.audit)
    case Protect(_, prot, shared, gate) => MayMap(h, prot, shared, gate.audit)
  }

  /** What decides for a handle that is not managed. */
  predicate PermittedUnmanaged(s: State, op: Op)
    requires !op.EndIntent? && op.f < |s.handles|
  {
    match op
    case BeginIntent(_, _, _) => s.marker.None?
    case Permission(_, mask, _, gate) => MayWrite in mask || MayAppend in mask ==> gate.contentOk && gate.unmanagedOk
    case Truncate(_, gate) => gate.contentOk
    case Fallocate(_, _, _, _, gate) => gate.contentOk
    case Map(f, prot, _, gate) => !s.handles[f].pathOnly && (prot != {} ==> gate.unmanagedOk)
    case Protect(_, prot, _, gate) => prot != {} ==> gate.unmanagedOk
    case _ => true
  }

  lemma PermissionExactly(s: State, f: nat, mask: set<Access>, gate: Gate)
    requires f < |s.handles| && s.handles[f].managed
    ensures CheckPermission(s, f, mask, gate).1 == 0 <==> MayDo(s, f, mask, gate)
  {
    hide EmitAudit;
    hide Heard;
    var h := s.handles[f];
    var needed := ReadPart(mask);
    ReadPartLooks(mask);
    AuditIsHeard(h, needed, EACCES, gate.audit);
    if s.marker.Some? {
      WriteExactly(h, s.marker.value.flags, s.marker.value.positioned, gate);
    }
    hide WriteIntent;
    assert needed <= h.granted <==>
           (MayRead in mask ==> ReadData in h.granted) && (Moves(mask) ==> Traverse in h.granted);
    assert needed + {} == needed;
    AuditIsHeard(h, needed + {WriteData, AppendData}, Deny(h.granted * {WriteData, AppendData} == {}), gate.audit);
    EitherRight(h.granted);
    AuditIsHeard(h, needed + {WriteData}, Deny(WriteData !in h.granted), gate.audit);
    AuditIsHeard(h, needed, 0, gate.audit);
    hide ReadPart;
    hide Looks;
    hide Moves;
    hide MayWriteSo;
  }

  lemma EitherRight(granted: set<Right>)
    ensures granted * {WriteData, AppendData} == {} <==> WriteData !in granted && AppendData !in granted
  {
    assert WriteData in granted ==> WriteData in granted * {WriteData, AppendData};
    assert AppendData in granted ==> AppendData in granted * {WriteData, AppendData};
  }

  lemma AnyRight(granted: set<Right>)
    ensures granted * DATA_RIGHTS == {} <==> ReadData !in granted && WriteData !in granted && AppendData !in granted
  {
    assert ReadData in granted ==> ReadData in granted * DATA_RIGHTS;
    assert WriteData in granted ==> WriteData in granted * DATA_RIGHTS;
    assert AppendData in granted ==> AppendData in granted * DATA_RIGHTS;
  }

  lemma WriteExactly(h: Handle, flags: Rwf, positioned: bool, gate: Gate)
    requires h.managed
    ensures WriteIntent(h, flags, positioned, gate) == 0 <==>
            !h.pathOnly && gate.contentOk && MayWriteSo(h, flags, gate.audit)
  {
    hide EmitAudit;
    hide Heard;
    EitherRight(h.granted);
    AuditIsHeard(h, {WriteData}, Deny(WriteData !in h.granted), gate.audit);
    AuditIsHeard(h, {WriteData, AppendData}, Deny(h.granted * {WriteData, AppendData} == {}), gate.audit);
  }

  lemma MappingExactly(h: Handle, prot: set<Prot>, shared: bool, gate: Gate)
    requires h.managed
    ensures CheckGrant(h, MappingNeeds(prot, shared), gate) == 0 <==> MayMap(h, prot, shared, gate.audit)
  {
    hide EmitAudit;
    var required := MappingNeeds(prot, shared);
    AuditIsHeard(h, required, Deny(!(required <= h.granted)), gate.audit);
    assert required <= h.granted <==>
           && (ProtRead in prot ==> ReadData in h.granted) && (ProtExec in prot ==> Traverse in h.granted)
           && (ProtWrite in prot ==> if shared then WriteData in h.granted else ReadData in h.granted);
    assert ReadData in required <==> ProtRead in prot || (ProtWrite in prot && !shared);
    assert Traverse in required <==> ProtExec in prot;
    assert WriteData in required <==> ProtWrite in prot && shared;
    assert required <= {ReadData, Traverse, WriteData};
    assert required !! h.auditMask <==>
           && (ReadData in required ==> ReadData !in h.auditMask) && (Traverse in required ==> Traverse !in h.auditMask)
           && (WriteData in required ==> WriteData !in h.auditMask);
  }

  lemma FlagsExactly(s: State, f: nat, toAppend: bool, toNoatime: bool, gate: Gate)
    requires f < |s.handles| && s.handles[f].managed
    ensures CheckSetFlags(s, f, toAppend, toNoatime, gate).code == 0 <==>
            Permitted(s, SetFlags(f, toAppend, toNoatime, gate))
  {
    hide EmitAudit;
    var h := s.handles[f];
    var clears, sets := h.append && !toAppend, !h.noatime && toNoatime;
    var required := (if clears then {WriteData} else {}) + (if sets then {WriteAttributes} else {});
    var refused := (clears && AppendData in h.granted && WriteData !in h.granted) ||
                   (sets && WriteAttributes !in h.granted);
    AuditIsHeard(h, required, Deny(refused), gate.audit);
    assert required !! h.auditMask <==>
           (clears ==> WriteData !in h.auditMask) && (sets ==> WriteAttributes !in h.auditMask);
  }

  /** One operation on a managed handle is admitted exactly if the grant says so. */
  lemma DoExactly(s: State, op: Op)
    requires !op.EndIntent? && op.f < |s.handles| && s.handles[op.f].managed
    ensures Do(s, op).code == 0 <==> Permitted(s, op)
  {
    hide EmitAudit;
    hide Heard;
    hide MayDo;
    hide MayMap;
    hide CheckPermission;
    hide CheckGrant;
    hide CheckSetFlags;
    var h := s.handles[op.f];
    EitherRight(h.granted);
    AnyRight(h.granted);
    match op {
      case Permission(f, mask, rwf, gate) => PermissionExactly(s, f, mask, gate);
      case SetFlags(f, toAppend, toNoatime, gate) => FlagsExactly(s, f, toAppend, toNoatime, gate);
      case OtherFcntl(f, need, gate) =>
        AuditIsHeard(h, DATA_RIGHTS, Deny(h.granted * DATA_RIGHTS == {}), gate.audit);
        if need.Needs? {
          AuditIsHeard(h, {need.right}, Deny(need.right !in h.granted), gate.audit);
        }
      case Truncate(f, gate) => AuditIsHeard(h, {WriteData}, Deny(WriteData !in h.granted), gate.audit);
      case Fallocate(f, mode, keepSize, stray, gate) =>
        AuditIsHeard(h, {WriteData}, Deny(WriteData !in h.granted), gate.audit);
        AuditIsHeard(h, {WriteData, AppendData}, Deny(h.granted * {WriteData, AppendData} == {}), gate.audit);
      case Map(f, prot, shared, gate) => MappingExactly(h, prot, shared, gate);
      case Protect(f, prot, shared, gate) => MappingExactly(h, prot, shared, gate);
      case _ =>
    }
  }

  lemma DoExactlyUnmanaged(s: State, op: Op)
    requires !op.EndIntent? && op.f < |s.handles| && !s.handles[op.f].managed
    ensures Do(s, op).code == 0 <==> PermittedUnmanaged(s, op)
  {
    hide EmitAudit;
    match op {
      case Map(f, prot, shared, gate) => NeedsSomething(prot, shared);
      case Protect(f, prot, shared, gate) => NeedsSomething(prot, shared);
      case _ =>
    }
  }

  lemma NeedsSomething(prot: set<Prot>, shared: bool)
    ensures MappingNeeds(prot, shared) == {} <==> prot == {}
  {
    if prot != {} {
      var p :| p in prot;
      assert p == ProtRead || p == ProtWrite || p == ProtExec;
      assert (ProtRead in prot ==> ReadData in MappingNeeds(prot, shared)) &&
             (ProtExec in prot ==> Traverse in MappingNeeds(prot, shared)) &&
             (ProtWrite in prot ==> WriteData in MappingNeeds(prot, shared) || ReadData in MappingNeeds(prot, shared));
    }
  }

  lemma {:induction false} GrantsStayFrozen(s: State, ops: seq<Op>, f: nat)
    requires f < |s.handles|
    ensures
      var r := Execute(s, ops);
      && |r.handles| == |s.handles|
      && r.handles[f] == s.handles[f].(append := r.handles[f].append, noatime := r.handles[f].noatime)
  {
    hide Do;
    if ops != [] {
      GrantsStayFrozen(s, ops[..|ops| - 1], f);
      GrantIsFrozen(Execute(s, ops[..|ops| - 1]), ops[|ops| - 1], f);
    }
  }

  /** After any operations, through whichever handles, an operation on a handle is
      admitted exactly if the grant the handle was opened with holds the rights it asks
      for, and the record that is due for them gets out. */
  lemma AdmittedExactlyByTheGrant(s: State, ops: seq<Op>, op: Op)
    requires !op.EndIntent? && op.f < |s.handles|
    ensures
      var r := Execute(s, ops);
      && op.f < |r.handles|
      && r.handles[op.f].granted == s.handles[op.f].granted && r.handles[op.f].managed == s.handles[op.f].managed
      && (Do(r, op).code == 0 <==> if s.handles[op.f].managed then Permitted(r, op) else PermittedUnmanaged(r, op))
  {
    hide Do;
    hide Permitted;
    hide PermittedUnmanaged;
    GrantsStayFrozen(s, ops, op.f);
    if s.handles[op.f].managed {
      DoExactly(Execute(s, ops), op);
    } else {
      DoExactlyUnmanaged(Execute(s, ops), op);
    }
  }

  // ----- the marker on a task -----

  /** A task's write-intent marker as its fields are updated in place. */
  class TaskSecurity {
    var handles: seq<Handle>
    var active: bool
    var file: nat
    var flags: Rwf
    var positioned: bool

    function View(): State
      reads this
    {
      State(handles, if active then Some(Marker(file, flags, positioned)) else None)
    }

    method BeginWriteIntent(f: nat, rwf: Rwf, atOffset: bool) returns (code: int)
      modifies this
      ensures (View(), code) == (Do(old(View()), BeginIntent(f, rwf, atOffset)).state,
                                 Do(old(View()), BeginIntent(f, rwf, atOffset)).code)
    {
      if f >= |handles| || active {
        return EACCES;
      }
      file, flags, positioned := f, rwf, atOffset;
      active := true;
      return 0;
    }

    method EndWriteIntent()
      modifies this
      ensures View() == Do(old(View()), EndIntent).state
    {
      if !active {
        return;
      }
      active := false;
      file, flags, positioned := 0, Rwf(false, false), false;
    }

    /** Consumes the marker when it is for this file, and then decides by it. */
    method CheckFilePermission(f: nat, mask: set<Access>, gate: Gate) returns (code: int)
      requires f < |handles|
      modifies this
      ensures (View(), code) == CheckPermission(old(View()), f, mask, gate)
      ensures old(handles[f]).managed ==> (code == 0 <==> MayDo(old(View()), f, mask, gate))
    {
      hide MayDo;
      if handles[f].managed {
        PermissionExactly(View(), f, mask, gate);
      }
      hide EmitAudit;
      hide WriteIntent;
      var h := handles[f];
      var write := MayWrite in mask;
      var append := MayAppend in mask || (write && h.append);
      var needed := ReadPart(mask);
      if (write || append) && !gate.contentOk {
        return EACCES;
      }
      if !h.managed {
        return Deny((write || append) && !gate.unmanagedOk);
      }
      if !(needed <= h.granted) {
        return EmitAudit(h, needed, EACCES, gate.audit);
      }
      if write && active {
        if file != f {
          return EACCES;
        }
        var rwf, atOffset := flags, positioned;
        active := false;
        file, flags, positioned := 0, Rwf(false, false), false;
        return WriteIntent(h, rwf, atOffset, gate);
      }
      var refused := false;
      var audited := needed;
      if append {
        audited := audited + {WriteData, AppendData};
        refused := h.granted * {WriteData, AppendData} == {};
      } else if write {
        audited := audited + {WriteData};
        refused := WriteData !in h.granted;
      }
      assert needed + {} == needed;
      return EmitAudit(h, audited, Deny(refused), gate.audit);
    }
  }
}
