/** The copy-up context as the kernel keeps it: one object whose fields are updated
    in place, each operation proved against its specification.  `seen` and `v` are
    the filesystem before and after the object's lock is taken. */
module CopyUpObject {
  import opened Widths
  import opened CopyUp

  class CopyUpContext {
    var hold: Holders
    const provider: Pin
    const providerSd: Bytes
    const capability: Option<Bytes>
    const userNs: nat
    var createdObjects: seq<Created>
    var staging: Option<Staging>
    var pendingCreatedInode: Option<Inode>
    var phaseGeneration: nat
    var armed: Armed
    // history
    var past: Past

    function View(): Context
      reads this
    {
      Context(hold, provider, providerSd, capability, userNs, createdObjects, staging, pendingCreatedInode,
              phaseGeneration, armed, past)
    }

    /** While no phase is armed nothing of one is left behind. */
    predicate Valid()
      reads this
    {
      armed.phase.NoPhase? ==> armed == DISARMED
    }

    constructor (path: Path, inode: Inode, sd: Bytes, cap: Option<Bytes>, ns: nat)
      ensures Valid() && View() == Alloc(path, inode, sd, cap, ns)
    {
      hold := Holders(1, false, 1);
      provider, providerSd, capability, userNs := Pin(path, inode), sd, cap, ns;
      createdObjects, staging, pendingCreatedInode, phaseGeneration := [], None, None, 0;
      armed, past := DISARMED, Past(map[], map[], [], []);
    }

    method ArmPhaseLocked(p: Phase) returns (e: Errno)
      requires Valid() && !p.NoPhase?
      modifies this
      ensures Valid() && (View(), e) == Arm(old(View()), DISARMED.(phase := p))
    {
      if !armed.phase.NoPhase? {
        return EBUSY;
      }
      if phaseGeneration == U64 - 1 {
        return EOVERFLOW;
      }
      phaseGeneration := phaseGeneration + 1;
      armed := armed.(phase := p);
      return OK;
    }

    method ClearPhaseLocked()
      modifies this
      ensures Valid() && View() == Clear(old(View()))
    {
      armed := armed.(phase := NoPhase);
      armed := armed.(provider := None, parent := None, dentry := None, name := "");
      armed := armed.(inode := None, sd := [], format := OtherFormat, anonymous := false, directory := false);
      armed := armed.(createSeen := false, initSeen := false, stackedSeen := false, stackedSd := false);
      armed := armed.(cloneActive := false, cloneHookSeen := false, orphan := false);
    }

    /** The descriptor a creation from `source` is to give out: the context's own for its
        provider, the effective one of any other source. */
    method ChooseSd(source: Path, inode: Inode, effective: Option<Bytes>) returns (sd: Bytes, e: Errno)
      ensures e.ESTALE? <==> source == provider.path && inode != provider.inode
      ensures e.EACCES? <==> source != provider.path && (effective.None? || effective.value == [])
      ensures !e.ESTALE? && !e.EACCES? ==> e.OK?
      ensures e.OK? ==> Some(sd) == if source == provider.path then Some(providerSd) else effective
    {
      if source == provider.path {
        return providerSd, if inode != provider.inode then ESTALE else OK;
      }
      if effective.None? || effective.value == [] {
        return [], EACCES;
      }
      return effective.value, OK;
    }

    method BeginCreateCommon(seen: Vfs, source: Path, effective: Option<Bytes>, parent: Path, dest: Option<Dentry>,
                             format: Format, anonymous: bool) returns (e: Errno)
      requires Valid()
      modifies this
      ensures Valid()
      ensures (View(), e) == BeginCreate(old(View()), seen, source, effective, parent, dest, format, anonymous)
      ensures e.OK? ==> Some(armed.sd) == if source == provider.path then Some(providerSd) else effective
    {
      hide InodeOf;
      if !CreateArguments(seen, source, parent, dest, format, anonymous) {
        return EINVAL;
      }
      assert InodeOf(seen, source.dentry).Some? && InodeOf(seen, parent.dentry).Some?;
      hide CreateArguments;
      var providerInode, parentInode := InodeOf(seen, source.dentry).value, InodeOf(seen, parent.dentry).value;
      var sd;
      sd, e := ChooseSd(source, providerInode, effective);
      if !e.OK? {
        return;
      }
      e := ArmPhaseLocked(Create);
      if !e.OK? {
        return;
      }
      pendingCreatedInode := None;
      armed := armed.(provider := Some(Pin(source, providerInode)), parent := Some(Pin(parent, parentInode)),
                      dentry := dest, sd := sd, format := format, anonymous := anonymous);
      past := past.(pinned := past.pinned[phaseGeneration := sd]);
    }

    method DentryCreateFilesAs(v: Vfs, d: Dentry, format: Format) returns (e: Errno)
      requires Valid()
      modifies this`armed
      ensures Valid() && (View(), e) == DentryCreate(old(View()), v, d, format)
    {
      hide InodeOf;
      hide ParentOf;
      assert View().armed == armed;
      var a := armed;
      if !a.phase.Create? || a.parent.None? {
        return OK;
      }
      var parent := a.parent.value;
      if ParentOf(v, d) != parent.path.dentry || InodeOf(v, parent.path.dentry) != Some(parent.inode)
         || format != a.format {
        return OK;
      }
      var matches := if a.anonymous then a.dentry.None? else a.dentry == Some(d);
      if !matches {
        return OK;
      }
      if InodeOf(v, d).Some? || (!a.anonymous && !a.createSeen) || a.stackedSeen {
        return EACCES;
      }
      armed := a.(stackedSeen := true);
      return OK;
    }

    method PostCreateTmpfileHook(v: Vfs, i: Inode, format: Format, superblock: nat)
      requires Valid()
      modifies this
      ensures Valid() && View() == PostCreateTmpfile(old(View()), v, i, format, superblock)
    {
      if !armed.phase.Create? || !armed.anonymous || !armed.stackedSeen || !armed.stackedSd
         || pendingCreatedInode.Some? || armed.parent.None?
         || superblock != SuperblockOf(v, armed.parent.value.inode) || format != armed.format
      {
        return;
      }
      pendingCreatedInode := Some(i);
      past := past.(made := past.made[i := phaseGeneration]);
    }

    method CreateMatches(v: Vfs, dir: Inode, d: Dentry, format: Format) returns (allowed: bool)
      ensures allowed == AllowsCreate(View(), v, dir, d, format)
    {
      hide InodeOf;
      hide ParentOf;
      var a := armed;
      if !a.phase.Create? || a.anonymous || a.createSeen {
        return false;
      }
      if !InodeMatches(v, dir, a.parent) {
        return false;
      }
      var parent := a.parent.value.path.dentry;
      return a.dentry == Some(d) && ParentOf(v, d) == parent && InodeOf(v, d).None? && a.format == format;
    }

    /** Admits one named creation; the second call of the same phase is refused. */
    method AllowsCreateHook(v: Vfs, dir: Inode, d: Dentry, format: Format) returns (allowed: bool)
      requires Valid()
      modifies this
      ensures Valid() && allowed == AllowsCreate(old(View()), v, dir, d, format)
      ensures View() == CreateHook(old(View()), v, dir, d, format)
      ensures allowed ==> View().armed.createSeen && View().armed.phase == old(armed.phase)
    {
      allowed := CreateMatches(v, dir, d, format);
      if allowed {
        assert armed.phase.Create?;
        hide AllowsCreate;
        armed := armed.(createSeen := true);
        past := past.(named := past.named + [phaseGeneration]);
      }
    }

    method CreationMatches(v: Vfs, format: Format, dir: Inode, name: string) returns (matches: bool)
      ensures matches == InitNamed(View(), v, format, dir, name)
    {
      hide InodeMatches;
      hide NameOf;
      if armed.stackedSeen {
        return format == armed.format;
      }
      if !InodeMatches(v, dir, armed.parent) {
        return false;
      }
      matches := if armed.anonymous then format == armed.format
                 else armed.dentry.Some? && name == NameOf(v, armed.dentry.value);
    }

    method InitSecurityHook(v: Vfs, i: Inode, format: Format, dir: Inode, name: string) returns (r: InitResult)
      requires Valid()
      modifies this
      ensures Valid() && (View(), r) == InitSecurity(old(View()), v, i, format, dir, name)
    {
      hide InitNamed;
      if !armed.phase.Create? {
        return Unmatched;
      }
      var matches := CreationMatches(v, format, dir, name);
      if !matches {
        return Unmatched;
      }
      if armed.initSeen || armed.sd == [] || format != armed.format || (!armed.anonymous && !armed.createSeen) {
        return Denied;
      }
      armed := armed.(initSeen := true, stackedSd := armed.stackedSeen);
      past := past.(stamps := past.stamps + [Stamp(phaseGeneration, i, armed.sd)]);
      if !armed.stackedSeen {
        pendingCreatedInode := Some(i);
        past := past.(made := past.made[i := phaseGeneration]);
        if !armed.anonymous && armed.dentry.Some? && armed.parent.Some? {
          var parent := armed.parent.value;
          createdObjects := createdObjects + [Created(Path(parent.path.mnt, armed.dentry.value), i, parent)];
        }
      }
      return Matched(armed.sd);
    }

    method ConfirmNamedCreate(v: Vfs, p: Path) returns (e: Errno)
      requires Valid()
      modifies this
      ensures Valid() && (View(), e) == ConfirmNamed(old(View()), v, p)
    {
      if InodeOf(v, p.dentry).None? {
        return EINVAL;
      }
      if !ConfirmArguments(View(), v, p) {
        return ESTALE;
      }
      var inode := InodeOf(v, p.dentry).value;
      if armed.initSeen && pendingCreatedInode == Some(inode) && !armed.stackedSeen {
        return OK;
      }
      if !armed.stackedSeen || !armed.stackedSd || pendingCreatedInode.Some? {
        return EACCES;
      }
      var parent := armed.parent.value;
      pendingCreatedInode := Some(inode);
      createdObjects := createdObjects + [Created(Path(parent.path.mnt, p.dentry), inode, parent)];
      return OK;
    }

    method BindStaging(seen: Vfs, v: Vfs, p: Path) returns (e: Errno)
      requires Valid()
      modifies this
      ensures Valid() && (View(), e) == Bind(old(View()), seen, v, p)
    {
      if InodeOf(seen, p.dentry).None? {
        return EINVAL;
      }
      if !FormatSupported(FormatOf(seen, InodeOf(seen, p.dentry).value)) {
        return EOPNOTSUPP;
      }
      var parent := ParentOf(seen, p.dentry);
      if InodeOf(seen, parent).None? {
        return ESTALE;
      }
      var parentInode := InodeOf(seen, parent).value;
      if !armed.phase.NoPhase? || staging.Some? || pendingCreatedInode.None?
         || pendingCreatedInode != InodeOf(v, p.dentry)
         || ParentOf(v, p.dentry) != parent || InodeOf(v, parent) != Some(parentInode)
      {
        return EBUSY;
      }
      staging := Some(Staging(p, pendingCreatedInode.value, Pin(Path(p.mnt, parent), parentInode)));
      pendingCreatedInode := None;
      return OK;
    }

    method FinishPublishing(seen: Vfs, v: Vfs, p: Path) returns (e: Errno)
      requires Valid()
      modifies this
      ensures Valid() && (View(), e) == FinishPublish(old(View()), seen, v, p)
    {
      if InodeOf(seen, p.dentry).None? {
        return EINVAL;
      }
      var parent := ParentOf(seen, p.dentry);
      e := OK;
      if !PublishedMatches(View(), v, p) || armed.parent.None? || armed.dentry.None?
         || p.mnt != armed.parent.value.path.mnt || parent != armed.parent.value.path.dentry
         || InodeOf(v, parent) != Some(armed.parent.value.inode)
         || staging.None? || InodeOf(seen, p.dentry) != Some(staging.value.inode) || InodeOf(v, p.dentry).None?
      {
        e := ESTALE;
      } else if armed.phase.PublishLink? {
        staging := Some(staging.value.(path := p));
      }
      ClearPhaseLocked();
    }

    /** Walks the created list for an entry that names exactly this victim. */
    method CleanupTargetTracked(v: Vfs, parent: Path, parentInode: Inode, victim: Dentry, inode: Inode)
      returns (found: bool)
      ensures found == Tracked(View(), v, parent, parentInode, victim, inode)
    {
      if StagingTracks(View(), v, parent, parentInode, victim, inode) {
        return true;
      }
      for k := 0 to |createdObjects|
        invariant forall j :: 0 <= j < k ==> !EntryTracks(createdObjects[j], v, parent, parentInode, victim, inode)
      {
        if EntryTracks(createdObjects[k], v, parent, parentInode, victim, inode) {
          return true;
        }
      }
      return false;
    }

    method BeginCleaningUp(seen: Vfs, v: Vfs, parent: Path, victim: Dentry, isDirectory: bool) returns (e: Errno)
      requires Valid()
      modifies this
      ensures Valid() && (View(), e) == BeginCleanup(old(View()), seen, v, parent, victim, isDirectory)
    {
      if InodeOf(seen, parent.dentry).None? || !IsDirectory(seen, InodeOf(seen, parent.dentry).value) {
        return EINVAL;
      }
      if InodeOf(seen, victim).None? {
        return ESTALE;
      }
      var parentInode, inode := InodeOf(seen, parent.dentry).value, InodeOf(seen, victim).value;
      if ParentOf(seen, victim) != parent.dentry || IsDirectory(seen, inode) != isDirectory {
        return ESTALE;
      }
      var tracked := CleanupTargetTracked(v, parent, parentInode, victim, inode);
      if !VictimInPlace(v, parent, parentInode, victim, inode) || !tracked {
        return ESTALE;
      }
      e := ArmPhaseLocked(Cleanup);
      if e.OK? {
        armed := armed.(parent := Some(Pin(parent, parentInode)), dentry := Some(victim), inode := Some(inode),
                        directory := isDirectory);
      }
    }

    /** After the first admitted call of a clone, every dentry is admitted. */
    method AllowsCapabilityHook(v: Vfs, d: Dentry, ns: nat) returns (allowed: bool)
      requires Valid()
      modifies this`armed
      ensures Valid() && allowed == AllowsCapabilitySetxattr(old(View()), v, d, ns)
      ensures View() == CapabilityHook(old(View()), v, d, ns)
    {
      if !armed.cloneActive || !armed.phase.Populate? || ns != userNs || !StagingValid(View(), v) {
        return false;
      }
      if !armed.cloneHookSeen {
        if !StagingDentry(View(), v, d) {
          return false;
        }
        armed := armed.(cloneHookSeen := true);
      }
      return true;
    }
  }
}
