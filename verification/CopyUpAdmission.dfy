/** What a copy-up context admits, exactly: over every run each hook admits what the
    operation that armed the phase was asked for, as long as the file system still shows
    it, and nothing else. */
module CopyUpAdmission {
  import opened Widths
  import opened CopyUp
  import opened CopyUpMachine
  import opened CopyUpLedger
  import opened CopyUpOrigins

  /** The path shows inode `i`, as it did when the operation looked at it. */
  predicate StillShows(seen: Vfs, v: Vfs, path: Path, i: Inode) {
    InodeOf(seen, path.dentry) == Some(i) && InodeOf(v, path.dentry) == Some(i)
  }

  /** A name without an inode in the directory that was asked for. */
  predicate FreeName(v: Vfs, parent: Path, d: Dentry) {
    ParentOf(v, d) == parent.dentry && InodeOf(v, d).None?
  }

  predicate AskedCreate(op: Op, v: Vfs, dir: Inode, d: Dentry, format: Format) {
    && op.DoCreate? && !op.anonymous && op.dest == Some(d) && op.format == format
    && StillShows(op.seen, v, op.parent, dir) && FreeName(v, op.parent, d)
  }

  predicate AskedLink(op: Op, v: Vfs, dir: Inode, to: Dentry) {
    && op.DoPublish? && !op.rename && op.target == to
    && StillShows(op.seen, v, op.parent, dir) && FreeName(v, op.parent, to)
  }

  predicate AskedRename(op: Op, v: Vfs, dir: Inode, to: Dentry) {
    && op.DoPublish? && op.rename && op.target == to
    && StillShows(op.seen, v, op.parent, dir) && FreeName(v, op.parent, to)
  }

  predicate AskedUnlink(op: Op, v: Vfs, dir: Inode, d: Dentry, directory: bool) {
    && (op.DoCleanup? || op.DoOrphanCleanup?) && op.victim == d && op.directory == directory
    && StillShows(op.seen, v, op.parent, dir) && ParentOf(v, d) == op.parent.dentry
    && InodeOf(v, d).Some? && InodeOf(v, d) == InodeOf(op.seen, d)
    && IsDirectory(v, InodeOf(v, d).value) == directory
  }

  // ----- access masks, by what they leave out -----

  predicate Searches(mask: set<Access>) {
    MayExec in mask || MayChdir in mask
  }

  lemma OneOfEight(a: Access)
    ensures a == MayExec || a == MayWrite || a == MayRead || a == MayAppend || a == MayAccess || a == MayOpen ||
            a == MayChdir || a == MayNotBlock
  {}

  lemma ReadsOnly(v: Vfs, i: Inode, mask: set<Access>)
    ensures ReadMask(v, i, mask) <==>
            MayWrite !in mask && MayAppend !in mask && (Searches(mask) ==> IsDirectory(v, i))
  {
    if MayWrite !in mask && MayAppend !in mask && (Searches(mask) ==> IsDirectory(v, i)) {
      forall a | a in mask
        ensures a in {MayRead, MayOpen, MayAccess, MayNotBlock} + if IsDirectory(v, i) then {MayExec, MayChdir} else {}
      {
        OneOfEight(a);
      }
    }
  }

  lemma EntersOnly(mask: set<Access>)
    ensures ParentMask(mask) <==> MayRead !in mask && MayAppend !in mask
  {
    if MayRead !in mask && MayAppend !in mask {
      forall a | a in mask ensures a in {MayWrite, MayExec, MayOpen, MayAccess, MayChdir, MayNotBlock} {
        OneOfEight(a);
      }
    }
  }

  lemma AnyButSearch(v: Vfs, i: Inode, mask: set<Access>)
    ensures StagingMask(v, i, mask) <==> (Searches(mask) ==> IsDirectory(v, i))
  {
    if Searches(mask) ==> IsDirectory(v, i) {
      forall a | a in mask
        ensures a in {MayRead, MayWrite, MayAppend, MayOpen, MayAccess, MayNotBlock} +
                     if IsDirectory(v, i) then {MayExec, MayChdir} else {}
      {
        OneOfEight(a);
      }
    }
  }

  /** What a mask may ask of the inode it names. */
  datatype Right = Nothing | Reading | Entering | Anything

  predicate Fits(v: Vfs, i: Inode, mask: set<Access>, right: Right) {
    match right
    case Nothing => false
    case Reading => MayWrite !in mask && MayAppend !in mask && (Searches(mask) ==> IsDirectory(v, i))
    case Entering => MayRead !in mask && MayAppend !in mask
    case Anything => Searches(mask) ==> IsDirectory(v, i)
  }

  predicate ProviderShown(k: Context, v: Vfs, i: Inode) {
    k.provider.inode == i && InodeOf(v, k.provider.path.dentry) == Some(i)
  }

  predicate StagingShown(k: Context, v: Vfs, i: Inode) {
    StagingValid(k, v) && k.staging.value.inode == i
  }

  /** The right an operation's phase gives to an inode. */
  function RightOn(op: Op, k: Context, v: Vfs, i: Inode): Right {
    match op
    case DoSourceRead => if ProviderShown(k, v, i) then Reading else Nothing
    case DoCreate(seen, provider, _, parent, _, _, _) =>
      if StillShows(seen, v, provider, i) then Reading
      else if StillShows(seen, v, parent, i) then Entering else Nothing
    case DoPopulate =>
      if ProviderShown(k, v, i) then Reading else if StagingShown(k, v, i) then Anything else Nothing
    case DoPublish(seen, parent, _, rename) =>
      if !StagingValid(k, v) then Nothing
      else if StagingShown(k, v, i) then Reading
      else if StillShows(seen, v, parent, i) || (rename && k.staging.value.parent.inode == i) then Entering
      else Nothing
    case DoCleanup(seen, parent, _, _) => if StillShows(seen, v, parent, i) then Entering else Nothing
    case DoOrphanCleanup(seen, parent, _, _) => if StillShows(seen, v, parent, i) then Entering else Nothing
    case _ => Nothing
  }

  lemma PermissionAsAsked(op: Op, k: Context, v: Vfs, i: Inode, mask: set<Access>)
    requires AsAsked(op, k.provider, k.providerSd, k.armed)
    ensures AllowsPermission(k, v, i, mask) <==> Fits(v, i, mask, RightOn(op, k, v, i))
  {
    ReadsOnly(v, i, mask);
    EntersOnly(mask);
    AnyButSearch(v, i, mask);
    hide ReadMask;
    hide ParentMask;
    hide StagingMask;
    hide Searches;
  }

  lemma DirectoriesAsAsked(op: Op, k: Context, v: Vfs, dir: Inode, d: Dentry)
    requires AsAsked(op, k.provider, k.providerSd, k.armed)
    ensures forall from :: AllowsLink(k, v, from, dir, d) <==> StagingDentry(k, v, from) && AskedLink(op, v, dir, d)
    ensures forall from, fromDir :: AllowsRename(k, v, fromDir, from, dir, d) <==>
              StagingDentry(k, v, from) && k.staging.value.parent.inode == fromDir && AskedRename(op, v, dir, d)
    ensures forall directory :: AllowsUnlink(k, v, dir, d, directory) <==> AskedUnlink(op, v, dir, d, directory)
  {
    hide NameOf;
    hide InodeOf;
    hide ParentOf;
  }

  lemma CreateAsAsked(op: Op, k: Context, v: Vfs, dir: Inode, d: Dentry, format: Format)
    requires AsAsked(op, k.provider, k.providerSd, k.armed) && Ledger(k)
    ensures AllowsCreate(k, v, dir, d, format) <==>
            AskedCreate(op, v, dir, d, format) && k.generation !in k.past.named
  {}

  // ----- whole runs -----

  /** What context `c` is doing, and the operation that asked for it. */
  ghost predicate Ordered(n: nat, v: Vfs, xs: seq<Action>, c: Ctx, j: nat, op: Op) {
    var s := Execute(Init(n, v), xs);
    && c < |s.contexts| && ArmedAt(Init(n, v), xs, j, c, s.contexts[c].generation, op)
    && AsAsked(op, s.contexts[c].provider, s.contexts[c].providerSd, s.contexts[c].armed)
  }

  /** Every armed phase was armed by an operation of an attached task, and holds what
      that operation was asked for. */
  lemma PhaseWasAsked(n: nat, v: Vfs, xs: seq<Action>, c: Ctx) returns (j: nat, op: Op)
    requires
      var s := Execute(Init(n, v), xs);
      c < |s.contexts| && !s.contexts[c].armed.phase.NoPhase?
    ensures Ordered(n, v, xs, c, j, op)
  {
    hide ArmedAt;
    var s0, k := Init(n, v), Execute(Init(n, v), xs).contexts[c];
    AlwaysOriginated(n, v, xs, c);
    j, op :| ArmedAt(s0, xs, j, c, k.generation, op) && AsAsked(op, k.provider, k.providerSd, k.armed);
  }

  /** Name space: what an armed phase lets be created, linked, renamed and removed is
      what was asked for, and a named creation only once. */
  lemma AdmitsExactlyTheAskedChange(n: nat, v: Vfs, xs: seq<Action>, c: Ctx, dir: Inode, d: Dentry)
    returns (j: nat, op: Op)
    requires
      var s := Execute(Init(n, v), xs);
      c < |s.contexts| && !s.contexts[c].armed.phase.NoPhase?
    ensures Ordered(n, v, xs, c, j, op)
    ensures
      var s := Execute(Init(n, v), xs);
      var k := s.contexts[c];
      && (forall format :: AllowsCreate(k, s.vfs, dir, d, format) <==>
                           AskedCreate(op, s.vfs, dir, d, format) && k.generation !in k.past.named)
      && (forall from :: AllowsLink(k, s.vfs, from, dir, d) <==>
                         StagingDentry(k, s.vfs, from) && AskedLink(op, s.vfs, dir, d))
      && (forall from, fromDir :: AllowsRename(k, s.vfs, fromDir, from, dir, d) <==>
            StagingDentry(k, s.vfs, from) && k.staging.value.parent.inode == fromDir && AskedRename(op, s.vfs, dir, d))
      && (forall directory :: AllowsUnlink(k, s.vfs, dir, d, directory) <==> AskedUnlink(op, s.vfs, dir, d, directory))
  {
    hide AllowsCreate;
    hide AskedCreate;
    hide AllowsLink;
    hide AllowsRename;
    hide AllowsUnlink;
    hide AskedLink;
    hide AskedRename;
    hide AskedUnlink;
    hide AsAsked;
    hide ArmedAt;
    hide Ledger;
    hide StagingDentry;
    var s := Execute(Init(n, v), xs);
    var k := s.contexts[c];
    j, op := PhaseWasAsked(n, v, xs, c);
    AlwaysLedgers(n, v, xs);
    forall format ensures AllowsCreate(k, s.vfs, dir, d, format) <==>
                          AskedCreate(op, s.vfs, dir, d, format) && k.generation !in k.past.named {
      CreateAsAsked(op, k, s.vfs, dir, d, format);
    }
    DirectoriesAsAsked(op, k, s.vfs, dir, d);
  }

  /** The creation hook is about this creation: of the armed directory and name, or,
      once the outer creation of a stack has been seen, of the armed format. */
  predicate HookNames(op: Op, k: Context, v: Vfs, format: Format, dir: Inode, name: string) {
    && op.DoCreate?
    && (k.armed.stackedSeen || op.anonymous ==> format == op.format)
    && (!k.armed.stackedSeen ==>
          && StillShows(op.seen, v, op.parent, dir)
          && (!op.anonymous ==> op.dest.Some? && name == NameOf(v, op.dest.value)))
  }

  lemma InitAsAsked(op: Op, k: Context, v: Vfs, i: Inode, format: Format, dir: Inode, name: string)
    requires AsAsked(op, k.provider, k.providerSd, k.armed) && Ledger(k) && k.providerSd != []
    ensures
      var r := InitSecurity(k, v, i, format, dir, name).1;
      && (r.Unmatched? <==> !HookNames(op, k, v, format, dir, name))
      && (r.Matched? <==>
            && HookNames(op, k, v, format, dir, name) && format == op.format
            && k.generation !in Generations(k.past.stamps) && (op.anonymous || k.generation in k.past.named))
  {
    hide Increasing;
    hide Generations;
  }

  /** Descriptors: the creation hook of an armed phase ignores creations that the phase
      is not about, and of those it is about it supplies a descriptor to the first, of
      the asked format and, if it has a name, once that name was admitted. */
  lemma SuppliesExactlyTheAskedDescriptor(n: nat, v: Vfs, xs: seq<Action>, c: Ctx, i: Inode, format: Format, dir: Inode,
                                          name: string)
    returns (j: nat, op: Op)
    requires
      var s := Execute(Init(n, v), xs);
      c < |s.contexts| && !s.contexts[c].armed.phase.NoPhase?
    ensures Ordered(n, v, xs, c, j, op)
    ensures
      var s := Execute(Init(n, v), xs);
      var k := s.contexts[c];
      var r := InitSecurity(k, s.vfs, i, format, dir, name).1;
      && (r.Unmatched? <==> !HookNames(op, k, s.vfs, format, dir, name))
      && (r.Matched? <==>
            && HookNames(op, k, s.vfs, format, dir, name) && format == op.format
            && k.generation !in Generations(k.past.stamps) && (op.anonymous || k.generation in k.past.named))
  {
    hide ArmedAt;
    hide AsAsked;
    hide InitSecurity;
    hide HookNames;
    hide Ledger;
    hide BegunAt;
    var s := Execute(Init(n, v), xs);
    j, op := PhaseWasAsked(n, v, xs, c);
    AlwaysLedgers(n, v, xs);
    AlwaysOriginated(n, v, xs, c);
    assert Begun(Init(n, v), xs, c, s.contexts[c]);
    InitAsAsked(op, s.contexts[c], s.vfs, i, format, dir, name);
  }

  /** Access: the armed phase gives each inode exactly one right, by what was asked. */
  lemma AdmitsExactlyTheAskedAccess(n: nat, v: Vfs, xs: seq<Action>, c: Ctx, i: Inode, mask: set<Access>)
    returns (j: nat, op: Op)
    requires
      var s := Execute(Init(n, v), xs);
      c < |s.contexts| && !s.contexts[c].armed.phase.NoPhase?
    ensures Ordered(n, v, xs, c, j, op)
    ensures
      var s := Execute(Init(n, v), xs);
      AllowsPermission(s.contexts[c], s.vfs, i, mask) <==> Fits(s.vfs, i, mask, RightOn(op, s.contexts[c], s.vfs, i))
  {
    hide AllowsPermission;
    hide ArmedAt;
    hide AsAsked;
    hide Fits;
    hide RightOn;
    var s := Execute(Init(n, v), xs);
    j, op := PhaseWasAsked(n, v, xs, c);
    PermissionAsAsked(op, s.contexts[c], s.vfs, i, mask);
  }

  /** Attributes: exactly the staging object while it is being populated, and on the
      provider exactly the staging mark while an orphan is being marked.  Descriptors,
      ACLs and capabilities never go through this hook. */
  lemma AdmitsExactlyTheAskedAttributes(n: nat, v: Vfs, xs: seq<Action>, c: Ctx, d: Dentry, name: XattrName)
    returns (j: nat, op: Op)
    requires
      var s := Execute(Init(n, v), xs);
      c < |s.contexts| && !s.contexts[c].armed.phase.NoPhase?
    ensures Ordered(n, v, xs, c, j, op)
    ensures
      var s := Execute(Init(n, v), xs);
      var k := s.contexts[c];
      && (AllowsSetattr(k, s.vfs, d) <==> op.DoPopulate? && StagingDentry(k, s.vfs, d))
      && (name.StagingXattr? ==>
            (AllowsSetxattr(k, s.vfs, d, name) <==>
               || (op.DoPopulate? && StagingDentry(k, s.vfs, d))
               || (op.DoOrphanMarker? && d == k.provider.path.dentry && ProviderShown(k, s.vfs, k.provider.inode))))
      && (name.OtherXattr? ==>
            (AllowsSetxattr(k, s.vfs, d, name) <==> op.DoPopulate? && StagingDentry(k, s.vfs, d)))
      && (name.SdXattr? || name.PosixAcl? || name.CapsXattr? ==> !AllowsSetxattr(k, s.vfs, d, name))
  {
    hide ArmedAt;
    hide StagingDentry;
    hide Step;
    j, op := PhaseWasAsked(n, v, xs, c);
  }

  // ----- files -----

  /** The file is the context's provider, or the one a creation named. */
  predicate OfProvider(op: Op, k: Context, v: Vfs, f: File) {
    || (f.path == k.provider.path && ProviderShown(k, v, k.provider.inode))
    || (&& op.DoCreate? && f.path == op.provider && InodeOf(v, op.provider.dentry).Some?
        && InodeOf(v, op.provider.dentry) == InodeOf(op.seen, op.provider.dentry))
  }

  predicate IsSource(k: Context, v: Vfs, f: File) {
    f.path == k.provider.path && ProviderShown(k, v, f.inode)
  }

  predicate IsStaging(k: Context, v: Vfs, f: File) {
    StagingShown(k, v, f.inode) && f.path == k.staging.value.path
  }

  /** The file is one that the phase is about. */
  predicate Concerns(op: Op, k: Context, v: Vfs, f: File) {
    match op
    case DoSourceRead => IsSource(k, v, f)
    case DoPopulate => IsSource(k, v, f) || IsStaging(k, v, f)
    case DoCreate(seen, _, _, parent, dest, format, anonymous) =>
      && f.path.mnt == parent.mnt && InodeOf(v, f.path.dentry).Some?
      && k.pending == Some(f.inode) && FormatOf(v, f.inode) == format
      && (if anonymous then ParentOf(v, f.path.dentry) == parent.dentry
          else dest == Some(f.path.dentry) && k.generation in k.past.named
               && k.generation in Generations(k.past.stamps))
    case _ => false
  }

  predicate Opens(op: Op, k: Context, v: Vfs, f: File) {
    Concerns(op, k, v, f) && !f.opaquePath && (f.writing ==> !OfProvider(op, k, v, f))
  }

  lemma FileAsAsked(op: Op, k: Context, v: Vfs, f: File)
    requires AsAsked(op, k.provider, k.providerSd, k.armed) && Ledger(k)
    ensures FileAllowed(k, v, f) <==> Opens(op, k, v, f)
    ensures op.DoSourceRead? || op.DoPopulate? || op.DoCreate? ==> (IsProvider(k, v, f) <==> OfProvider(op, k, v, f))
  {
    hide NameOf;
    hide Increasing;
    hide Generations;
  }

  /** Internal files: one bound to the context is refused to everybody but a task that
      carries the context, in the generation it is stamped with; there it is admitted
      exactly if the phase is about it, and then for reading only, if it is a provider. */
  lemma AdmitsExactlyTheAskedFile(n: nat, v: Vfs, xs: seq<Action>, c: Ctx, current: Option<Ctx>, f: File,
                                  mask: set<Access>)
    returns (j: nat, op: Op)
    requires
      var s := Execute(Init(n, v), xs);
      c < |s.contexts| && !s.contexts[c].armed.phase.NoPhase?
    requires f.ctx == Some(c)
    ensures Ordered(n, v, xs, c, j, op)
    ensures
      var s := Execute(Init(n, v), xs);
      var k := s.contexts[c];
      var mine := current == Some(c) && f.generation == k.generation;
      && FileReopen(k, c, current, s.vfs, f) == (if mine && Opens(op, k, s.vfs, f) then Allow else Deny)
      && FilePermission(k, c, current, s.vfs, f, mask) ==
           (if mine && Opens(op, k, s.vfs, f)
               && Fits(s.vfs, f.inode, mask, if OfProvider(op, k, s.vfs, f) then Reading else Anything)
            then Allow else Deny)
      && (forall write :: FileMetadata(k, c, current, s.vfs, f, write) ==
           (if mine && (if write then op.DoPopulate? && IsStaging(k, s.vfs, f)
                        else || (op.DoPopulate? && Concerns(op, k, s.vfs, f))
                             || (op.DoSourceRead? && Concerns(op, k, s.vfs, f)))
            then Allow else Deny))
  {
    hide ArmedAt;
    hide FileAllowed;
    hide IsProvider;
    hide Ledger;
    var s := Execute(Init(n, v), xs);
    var k := s.contexts[c];
    j, op := PhaseWasAsked(n, v, xs, c);
    AlwaysLedgers(n, v, xs);
    FileAsAsked(op, k, s.vfs, f);
    ReadsOnly(s.vfs, f.inode, mask);
    AnyButSearch(s.vfs, f.inode, mask);
    hide ReadMask;
    hide StagingMask;
    hide Step;
  }

  /** An open binds a file exactly if it is such a file, and binds it so that it is
      admitted at once. */
  lemma OpenBindsExactlyTheAskedFile(n: nat, v: Vfs, xs: seq<Action>, t: nat, path: Path, inode: Inode, reading: bool,
                                     writing: bool, opaquePath: bool)
    returns (j: nat, op: Op)
    requires
      var s := Execute(Init(n, v), xs);
      && Owned(s, t) && s.contexts[s.tasks[t].ctx.value].hold.refs > 0
      && !s.contexts[s.tasks[t].ctx.value].armed.phase.NoPhase?
    ensures
      var s := Execute(Init(n, v), xs);
      var id := s.tasks[t].ctx.value;
      var r := Step(s, Open(t, path, inode, reading, writing, opaquePath));
      && Ordered(n, v, xs, id, j, op)
      && |r.files| == |s.files| + 1
      && var f := r.files[|s.files|];
         && f.path == path && f.inode == inode && f.writing == writing && f.opaquePath == opaquePath
         && (f.ctx == Some(id) <==> Opens(op, s.contexts[id], s.vfs, f))
         && (f.ctx == Some(id) ==> FileReopen(r.contexts[id], id, Some(id), r.vfs, f).Allow?)
         && (f.ctx != Some(id) ==> f.ctx.None? && !f.managed)
  {
    hide ArmedAt;
    hide Ledger;
    var s := Execute(Init(n, v), xs);
    var id := s.tasks[t].ctx.value;
    j, op := PhaseWasAsked(n, v, xs, id);
    AlwaysLedgers(n, v, xs);
    var f := File(path, inode, reading, writing, opaquePath, None, 0, false, false, 0, NoPhase);
    var r := Step(s, Open(t, path, inode, reading, writing, opaquePath));
    FileAsAsked(op, s.contexts[id], s.vfs, f);
    FileAsAsked(op, s.contexts[id], s.vfs, r.files[|s.files|]);
    hide AsAsked;
    OpenedFileReopens(s, t, f);
    hide FileAllowed;
  }

  lemma OpenedFileReopens(s: State, t: nat, f: File)
    requires Owned(s, t) && s.contexts[s.tasks[t].ctx.value].hold.refs > 0
    requires f.ctx.None?
    ensures
      var id := s.tasks[t].ctx.value;
      var r := AddRef(s, id);
      FileAllowed(r.contexts[id], r.vfs, f.(ctx := Some(id), generation := s.contexts[id].generation, managed := true,
                                           stamped := s.contexts[id].armed.phase)) <==>
      FileAllowed(s.contexts[id], s.vfs, f)
  {}

  // ----- when a phase can be armed -----

  predicate Directories(seen: Vfs, path: Path) {
    InodeOf(seen, path.dentry).Some? && IsDirectory(seen, InodeOf(seen, path.dentry).value)
  }

  /** The victim is where it is said to be, now as when it was looked at. */
  predicate InPlace(seen: Vfs, v: Vfs, parent: Path, victim: Dentry) {
    && Directories(seen, parent) && InodeOf(v, parent.dentry) == InodeOf(seen, parent.dentry)
    && InodeOf(seen, victim).Some? && InodeOf(v, victim) == InodeOf(seen, victim)
    && ParentOf(v, victim) == parent.dentry
  }

  /** The operation has grounds to arm its phase. */
  predicate Grounds(op: Op, k: Context, v: Vfs) {
    match op
    case DoSourceRead => true
    case DoOrphanMarker => ProviderShown(k, v, k.provider.inode)
    case DoPopulate => StagingValid(k, v)
    case DoCreate(seen, provider, effective, parent, dest, format, anonymous) =>
      && Directories(seen, parent) && !format.OtherFormat?
      && (if anonymous then dest.None? else dest.Some? && FreeName(seen, parent, dest.value))
      && (if provider == k.provider.path then ProviderShown(k, seen, k.provider.inode)
          else InodeOf(seen, provider.dentry).Some? && effective.Some? && effective.value != [])
    case DoPublish(seen, parent, target, _) =>
      Directories(seen, parent) && FreeName(seen, parent, target) && StagingValid(k, v)
    case DoCleanup(seen, parent, victim, directory) =>
      && InPlace(seen, v, parent, victim) && ParentOf(seen, victim) == parent.dentry
      && IsDirectory(seen, InodeOf(seen, victim).value) == directory
      && Tracked(k, v, parent, InodeOf(seen, parent.dentry).value, victim, InodeOf(seen, victim).value)
    case DoOrphanCleanup(seen, parent, victim, directory) =>
      && victim == k.provider.path.dentry && InPlace(seen, v, parent, victim)
      && IsDirectory(v, InodeOf(v, victim).value) == directory
    case _ => false
  }

  lemma CreationArms(k: Context, v: Vfs, op: Op)
    requires op.DoCreate?
    ensures Apply(k, v, op) == k <==> !(k.armed.phase.NoPhase? && k.generation != U64 - 1 && Grounds(op, k, v))
  {}

  lemma StagingArms(k: Context, v: Vfs, op: Op)
    requires op.DoSourceRead? || op.DoOrphanMarker? || op.DoPopulate? || op.DoPublish?
    ensures Apply(k, v, op) == k <==> !(k.armed.phase.NoPhase? && k.generation != U64 - 1 && Grounds(op, k, v))
  {
    hide StagingValid;
  }

  lemma CleanupArms(k: Context, v: Vfs, op: Op)
    requires op.DoCleanup? || op.DoOrphanCleanup?
    ensures Apply(k, v, op) == k <==> !(k.armed.phase.NoPhase? && k.generation != U64 - 1 && Grounds(op, k, v))
  {
    hide Tracked;
  }

  /** An operation arms its phase, under the next generation, exactly if none is armed,
      generations are left and it has grounds; otherwise it leaves the context alone. */
  lemma ArmsExactlyWithGrounds(k: Context, v: Vfs, op: Op)
    requires op.DoSourceRead? || op.DoOrphanMarker? || op.DoPopulate? || op.DoCreate? || op.DoPublish? ||
             op.DoCleanup? || op.DoOrphanCleanup?
    ensures
      var d := Apply(k, v, op);
      if k.armed.phase.NoPhase? && k.generation != U64 - 1 && Grounds(op, k, v)
      then d.generation == k.generation + 1 && AsAsked(op, k.provider, k.providerSd, d.armed)
      else d == k
  {
    hide Grounds;
    hide Apply;
    hide AsAsked;
    ApplyRearms(k, v, op);
    if op.DoCreate? {
      CreationArms(k, v, op);
    } else if op.DoCleanup? || op.DoOrphanCleanup? {
      CleanupArms(k, v, op);
    } else {
      StagingArms(k, v, op);
    }
    ArmsOrNothing(k, v, op);
  }

  lemma ArmsOrNothing(k: Context, v: Vfs, op: Op)
    requires op.DoSourceRead? || op.DoOrphanMarker? || op.DoPopulate? || op.DoCreate? || op.DoPublish? ||
             op.DoCleanup? || op.DoOrphanCleanup?
    ensures
      var d := Apply(k, v, op);
      d == k || (d.generation == k.generation + 1 && !d.armed.phase.NoPhase?)
  {
    hide Tracked;
    hide StagingValid;
    hide CreateArguments;
  }
}
