/** A StrataFS copy-up context: what each of its operations does to its fields, and
    what each hook admits, against an arbitrary state of the filesystem.

    A pinned path and its pinned inode are one value here, because the kernel sets
    and clears them together; a `Vfs` is whatever the dentry cache shows at the
    moment an operation looks. */
module CopyUp {
  import opened Widths

  type Dentry = nat
  type Inode = nat
  type Ctx = nat

  datatype Format = Regular | Directory | Symlink | OtherFormat

  datatype Path = Path(mnt: nat, dentry: Dentry)

  datatype Pin = Pin(path: Path, inode: Inode)

  /** Dentries without an inode are negative; a dentry without a recorded parent is
      its own parent. */
  datatype Vfs = Vfs(
    inodes: map<Dentry, Inode>,
    parents: map<Dentry, Dentry>,
    names: map<Dentry, string>,
    formats: map<Inode, Format>,
    superblocks: map<Inode, nat>)

  function InodeOf(v: Vfs, d: Dentry): Option<Inode> {
    if d in v.inodes then Some(v.inodes[d]) else None
  }

  function ParentOf(v: Vfs, d: Dentry): Dentry {
    if d in v.parents then v.parents[d] else d
  }

  function NameOf(v: Vfs, d: Dentry): string {
    if d in v.names then v.names[d] else ""
  }

  function FormatOf(v: Vfs, i: Inode): Format {
    if i in v.formats then v.formats[i] else OtherFormat
  }

  function SuperblockOf(v: Vfs, i: Inode): nat {
    if i in v.superblocks then v.superblocks[i] else 0
  }

  predicate IsDirectory(v: Vfs, i: Inode) {
    FormatOf(v, i).Directory?
  }

  datatype Access = MayExec | MayWrite | MayRead | MayAppend | MayAccess | MayOpen | MayChdir | MayNotBlock

  datatype Phase =
    | NoPhase | SourceRead | Create | Populate | PublishLink | PublishRename | Cleanup | OrphanMarker

  datatype Created = Created(path: Path, inode: Inode, parent: Pin)

  datatype Staging = Staging(path: Path, inode: Inode, parent: Pin)

  /** History: descriptor bytes given to an inode by the creation hook. */
  datatype Stamp = Stamp(generation: nat, inode: Inode, bytes: Bytes)

  /** Who holds the context; `owners` is history. */
  datatype Holders = Holders(refs: nat, attached: bool, owners: nat)

  /** The armed phase and everything that ends with it; `orphan` is history. */
  datatype Armed = Armed(
    phase: Phase,
    provider: Option<Pin>,
    sd: Bytes,
    parent: Option<Pin>,
    dentry: Option<Dentry>,
    name: string,
    inode: Option<Inode>,
    format: Format,
    anonymous: bool,
    directory: bool,
    createSeen: bool,
    initSeen: bool,
    stackedSeen: bool,
    stackedSd: bool,
    cloneActive: bool,
    cloneHookSeen: bool,
    orphan: bool)

  const DISARMED := Armed(NoPhase, None, [], None, None, "", None, OtherFormat, false, false, false, false, false,
                          false,
                          false, false, false)

  /** History: inodes the context's own creations made, with the generation they were
      made in; the descriptor pinned by each CREATE phase; the generations that
      admitted a named creation; and every descriptor handed to a new inode. */
  datatype Past = Past(made: map<Inode, nat>, pinned: map<nat, Bytes>, named: seq<nat>, stamps: seq<Stamp>)

  datatype Context = Context(
    hold: Holders,
    provider: Pin,
    providerSd: Bytes,
    capability: Option<Bytes>,
    userNs: nat,
    created: seq<Created>,
    staging: Option<Staging>,
    pending: Option<Inode>,
    generation: nat,
    armed: Armed,
    past: Past)

  datatype Errno = OK | EINVAL | EPERM | EBUSY | EOVERFLOW | ESTALE | EACCES | EOPNOTSUPP

  // ----- matching -----

  /** `path_inode_matches`: the same path, and it still shows the pinned inode. */
  predicate PathMatches(v: Vfs, left: Path, right: Path, inode: Inode) {
    left == right && InodeOf(v, right.dentry) == Some(inode)
  }

  /** `inode_matches_path` against a pinned path. */
  predicate InodeMatches(v: Vfs, inode: Inode, pin: Option<Pin>) {
    pin.Some? && inode == pin.value.inode && InodeOf(v, pin.value.path.dentry) == Some(inode)
  }

  predicate StagingValid(c: Context, v: Vfs) {
    && c.staging.Some?
    && var g := c.staging.value;
       && g.parent.path.mnt == g.path.mnt
       && InodeOf(v, g.path.dentry) == Some(g.inode)
       && ParentOf(v, g.path.dentry) == g.parent.path.dentry
       && InodeOf(v, g.parent.path.dentry) == Some(g.parent.inode)
  }

  predicate StagingDentry(c: Context, v: Vfs, d: Dentry) {
    StagingValid(c, v) && c.staging.value.path.dentry == d
  }

  predicate StagingPath(c: Context, v: Vfs, p: Path, inode: Inode) {
    StagingValid(c, v) && inode == c.staging.value.inode && p == c.staging.value.path
  }

  predicate FormatSupported(f: Format) {
    f.Regular? || f.Directory? || f.Symlink?
  }

  predicate ReadMask(v: Vfs, inode: Inode, mask: set<Access>) {
    mask <= {MayRead, MayOpen, MayAccess, MayNotBlock} + if IsDirectory(v, inode) then {MayExec, MayChdir} else {}
  }

  predicate ParentMask(mask: set<Access>) {
    mask <= {MayWrite, MayExec, MayOpen, MayAccess, MayChdir, MayNotBlock}
  }

  predicate StagingMask(v: Vfs, inode: Inode, mask: set<Access>) {
    mask <= {MayRead, MayWrite, MayAppend, MayOpen, MayAccess, MayNotBlock} +
            if IsDirectory(v, inode) then {MayExec, MayChdir} else {}
  }

  // ----- phases -----

  function Alloc(provider: Path, inode: Inode, sd: Bytes, capability: Option<Bytes>, userNs: nat): Context {
    Context(Holders(1, false, 1), Pin(provider, inode), sd, capability, userNs, [], None, None, 0, DISARMED,
            Past(map[], map[], [], []))
  }

  /** Arms a phase under a new generation; a generation is never used twice. */
  function Arm(c: Context, armed: Armed): (Context, Errno) {
    if !c.armed.phase.NoPhase? then (c, EBUSY)
    else if c.generation == U64 - 1 then (c, EOVERFLOW)
    else (c.(generation := c.generation + 1, armed := armed), OK)
  }

  function Clear(c: Context): Context {
    c.(armed := DISARMED)
  }

  // ----- creating -----

  /** Every check is made before the lock is taken, against what is seen then. */
  predicate CreateArguments(seen: Vfs, provider: Path, parent: Path, dest: Option<Dentry>, format: Format,
                            anonymous: bool) {
    && InodeOf(seen, provider.dentry).Some?
    && InodeOf(seen, parent.dentry).Some?
    && IsDirectory(seen, InodeOf(seen, parent.dentry).value)
    && FormatSupported(format)
    && (anonymous <==> dest.None?)
    && (dest.Some? ==> InodeOf(seen, dest.value).None? && ParentOf(seen, dest.value) == parent.dentry)
  }

  /** `effective` is the provider's effective descriptor, or None if it has none. */
  function BeginCreate(c: Context, seen: Vfs, provider: Path, effective: Option<Bytes>, parent: Path,
                       dest: Option<Dentry>, format: Format, anonymous: bool): (Context, Errno) {
    if !CreateArguments(seen, provider, parent, dest, format, anonymous) then (c, EINVAL)
    else
      var inode, parentInode := InodeOf(seen, provider.dentry).value, InodeOf(seen, parent.dentry).value;
      if provider == c.provider.path && inode != c.provider.inode then (c, ESTALE)
      else if provider != c.provider.path && (effective.None? || effective.value == []) then (c, EACCES)
      else
        var sd := if provider == c.provider.path then c.providerSd else effective.value;
        var (a, e) := Arm(c, DISARMED.(phase := Create, provider := Some(Pin(provider, inode)),
                                       parent := Some(Pin(parent, parentInode)), dentry := dest, sd := sd,
                                       format := format, anonymous := anonymous));
        if !e.OK? then (a, e)
        else (a.(pending := None, past := a.past.(pinned := a.past.pinned[a.generation := sd])), OK)
  }

  /** `dentry_create_files_as`: the outer create of a stacking filesystem. */
  function DentryCreate(c: Context, v: Vfs, d: Dentry, format: Format): (Context, Errno) {
    if !c.armed.phase.Create? || c.armed.parent.None? || ParentOf(v, d) != c.armed.parent.value.path.dentry
       || InodeOf(v, c.armed.parent.value.path.dentry) != Some(c.armed.parent.value.inode) || format != c.armed.format
    then (c, OK)
    else if !(if c.armed.anonymous then c.armed.dentry.None? else c.armed.dentry == Some(d)) then (c, OK)
    else if InodeOf(v, d).Some? || (!c.armed.anonymous && !c.armed.createSeen) then (c, EACCES)
    else if c.armed.stackedSeen then (c, EACCES)
    else (c.(armed := c.armed.(stackedSeen := true)), OK)
  }

  function Made(c: Context, i: Inode): Context {
    c.(past := c.past.(made := c.past.made[i := c.generation]))
  }

  /** The hook after an unnamed create: the first sight of the outer inode. */
  function PostCreateTmpfile(c: Context, v: Vfs, i: Inode, format: Format, superblock: nat): Context {
    if !c.armed.phase.Create? || !c.armed.anonymous || !c.armed.stackedSeen || !c.armed.stackedSd
       || c.pending.Some? || c.armed.parent.None?
       || superblock != SuperblockOf(v, c.armed.parent.value.inode) || format != c.armed.format
    then c
    else Made(c, i).(pending := Some(i))
  }

  predicate AllowsCreate(c: Context, v: Vfs, dir: Inode, d: Dentry, format: Format) {
    && c.armed.phase.Create? && !c.armed.anonymous && !c.armed.createSeen
    && InodeMatches(v, dir, c.armed.parent)
    && c.armed.dentry == Some(d)
    && ParentOf(v, d) == c.armed.parent.value.path.dentry
    && InodeOf(v, d).None?
    && format == c.armed.format
  }

  function CreateHook(c: Context, v: Vfs, dir: Inode, d: Dentry, format: Format): Context {
    if AllowsCreate(c, v, dir, d, format)
    then c.(armed := c.armed.(createSeen := true), past := c.past.(named := c.past.named + [c.generation]))
    else c
  }

  datatype InitResult = Unmatched | Denied | Matched(bytes: Bytes)

  predicate InitNamed(c: Context, v: Vfs, format: Format, dir: Inode, name: string) {
    if c.armed.stackedSeen then format == c.armed.format
    else
      && InodeMatches(v, dir, c.armed.parent)
      && (if c.armed.anonymous then format == c.armed.format
          else c.armed.dentry.Some? && name == NameOf(v, c.armed.dentry.value))
  }

  /** The creation hook: may stamp the new inode with the pinned descriptor. */
  function InitSecurity(c: Context, v: Vfs, i: Inode, format: Format, dir: Inode, name: string): (Context, InitResult) {
    if !c.armed.phase.Create? || !InitNamed(c, v, format, dir, name) then (c, Unmatched)
    else if c.armed.initSeen || c.armed.sd == [] || format != c.armed.format
            || (!c.armed.anonymous && !c.armed.createSeen)
    then (c, Denied)
    else
      var stamps := c.past.stamps + [Stamp(c.generation, i, c.armed.sd)];
      var c1 := c.(armed := c.armed.(initSeen := true, stackedSd := c.armed.stackedSeen),
                   past := c.past.(stamps := stamps));
      if c.armed.stackedSeen then (c1, Matched(c.armed.sd))
      else
        var c2 := Made(c1, i).(pending := Some(i));
        if c.armed.anonymous || c.armed.dentry.None? || c.armed.parent.None? then (c2, Matched(c.armed.sd))
        else
          var parent := c.armed.parent.value;
          (c2.(created := c.created + [Created(Path(parent.path.mnt, c.armed.dentry.value), i, parent)]),
           Matched(c.armed.sd))
  }

  predicate ConfirmArguments(c: Context, v: Vfs, p: Path) {
    && c.armed.phase.Create? && !c.armed.anonymous && c.armed.createSeen
    && c.armed.parent.Some?
    && InodeOf(v, p.dentry).Some?
    && p.mnt == c.armed.parent.value.path.mnt
    && c.armed.dentry == Some(p.dentry)
    && ParentOf(v, p.dentry) == c.armed.parent.value.path.dentry
    && InodeOf(v, c.armed.parent.value.path.dentry) == Some(c.armed.parent.value.inode)
    && FormatOf(v, InodeOf(v, p.dentry).value) == c.armed.format
  }

  /** The branch that registers whatever inode the created dentry shows now. */
  predicate ConfirmsStacked(c: Context, v: Vfs, p: Path) {
    && ConfirmArguments(c, v, p)
    && !(c.armed.initSeen && c.pending == InodeOf(v, p.dentry) && !c.armed.stackedSeen)
    && c.armed.stackedSeen && c.armed.stackedSd && c.pending.None?
  }

  function ConfirmNamed(c: Context, v: Vfs, p: Path): (Context, Errno) {
    if InodeOf(v, p.dentry).None? then (c, EINVAL)
    else if !ConfirmArguments(c, v, p) then (c, ESTALE)
    else if c.armed.initSeen && c.pending == InodeOf(v, p.dentry) && !c.armed.stackedSeen then (c, OK)
    else if !c.armed.stackedSeen || !c.armed.stackedSd || c.pending.Some? then (c, EACCES)
    else
      var i := InodeOf(v, p.dentry).value;
      (c.(pending := Some(i),
          created := c.created + [Created(Path(c.armed.parent.value.path.mnt, p.dentry), i, c.armed.parent.value)]), OK)
  }

  // ----- staging -----

  /** The parent is looked up before the lock (`seen`) and checked again under it. */
  function Bind(c: Context, seen: Vfs, v: Vfs, p: Path): (Context, Errno) {
    var parent := ParentOf(seen, p.dentry);
    if InodeOf(seen, p.dentry).None? then (c, EINVAL)
    else if !FormatSupported(FormatOf(seen, InodeOf(seen, p.dentry).value)) then (c, EOPNOTSUPP)
    else if InodeOf(seen, parent).None? then (c, ESTALE)
    else
      var parentInode := InodeOf(seen, parent).value;
      if !c.armed.phase.NoPhase? || c.staging.Some? || c.pending.None? || c.pending != InodeOf(v, p.dentry)
         || ParentOf(v, p.dentry) != parent || InodeOf(v, parent) != Some(parentInode)
      then (c, EBUSY)
      else (c.(staging := Some(Staging(p, c.pending.value, Pin(Path(p.mnt, parent), parentInode))),
               pending := None), OK)
  }

  function Rebind(c: Context, seen: Vfs, v: Vfs, p: Path): (Context, Errno) {
    if InodeOf(seen, p.dentry).None? then (c, EINVAL)
    else if !c.armed.phase.NoPhase? || c.staging.None? then (c, ESTALE)
    else
      var g := c.staging.value;
      if InodeOf(seen, p.dentry) != Some(g.inode) || p.mnt != g.path.mnt
         || ParentOf(seen, p.dentry) != g.parent.path.dentry
         || InodeOf(v, ParentOf(seen, p.dentry)) != Some(g.parent.inode)
      then (c, ESTALE)
      else (c.(staging := Some(g.(path := p))), OK)
  }

  function BeginPopulate(c: Context, v: Vfs): (Context, Errno) {
    if !StagingValid(c, v) then (c, EINVAL) else Arm(c, DISARMED.(phase := Populate))
  }

  function BeginPublish(c: Context, seen: Vfs, v: Vfs, parent: Path, dest: Dentry, rename: bool): (Context, Errno) {
    if InodeOf(seen, parent.dentry).None? || !IsDirectory(seen, InodeOf(seen, parent.dentry).value)
       || InodeOf(seen, dest).Some? || ParentOf(seen, dest) != parent.dentry
    then (c, EINVAL)
    else if !StagingValid(c, v) then (c, EINVAL)
    else
      Arm(c, DISARMED.(phase := if rename then PublishRename else PublishLink,
                       parent := Some(Pin(parent, InodeOf(seen, parent.dentry).value)), dentry := Some(dest),
                       name := NameOf(seen, dest)))
  }

  predicate PublishedMatches(c: Context, v: Vfs, p: Path) {
    match c.armed.phase
    case PublishLink => c.armed.dentry == Some(p.dentry)
    case PublishRename =>
      c.staging.Some? && p.dentry == c.staging.value.path.dentry && NameOf(v, p.dentry) == c.armed.name
    case _ => false
  }

  function FinishPublish(c: Context, seen: Vfs, v: Vfs, p: Path): (Context, Errno) {
    if InodeOf(seen, p.dentry).None? then (c, EINVAL)
    else
      var parent := ParentOf(seen, p.dentry);
      if !PublishedMatches(c, v, p) || c.armed.parent.None? || c.armed.dentry.None?
         || p.mnt != c.armed.parent.value.path.mnt || parent != c.armed.parent.value.path.dentry
         || InodeOf(v, parent) != Some(c.armed.parent.value.inode)
         || c.staging.None? || InodeOf(seen, p.dentry) != Some(c.staging.value.inode)
         || InodeOf(v, p.dentry).None?
      then (Clear(c), ESTALE)
      else (Clear(if c.armed.phase.PublishLink? then c.(staging := Some(c.staging.value.(path := p))) else c), OK)
  }

  // ----- cleaning up -----

  /** Staging, or one entry of the created list, names exactly this victim. */
  predicate StagingTracks(c: Context, v: Vfs, parent: Path, parentInode: Inode, victim: Dentry, inode: Inode) {
    && StagingValid(c, v)
    && var g := c.staging.value;
       && PathMatches(v, g.parent.path, parent, g.parent.inode)
       && PathMatches(v, g.path, Path(parent.mnt, victim), g.inode)
       && parentInode == g.parent.inode && inode == g.inode
  }

  predicate EntryTracks(k: Created, v: Vfs, parent: Path, parentInode: Inode, victim: Dentry, inode: Inode) {
    && PathMatches(v, k.parent.path, parent, k.parent.inode)
    && PathMatches(v, k.path, Path(parent.mnt, victim), k.inode)
    && parentInode == k.parent.inode && inode == k.inode
  }

  predicate Tracked(c: Context, v: Vfs, parent: Path, parentInode: Inode, victim: Dentry, inode: Inode) {
    || StagingTracks(c, v, parent, parentInode, victim, inode)
    || exists k :: 0 <= k < |c.created| && EntryTracks(c.created[k], v, parent, parentInode, victim, inode)
  }

  function ArmCleanup(c: Context, parent: Path, parentInode: Inode, victim: Dentry, inode: Inode, directory: bool,
                      orphan: bool): (Context, Errno) {
    Arm(c, DISARMED.(phase := Cleanup, parent := Some(Pin(parent, parentInode)), dentry := Some(victim),
                     inode := Some(inode), directory := directory, orphan := orphan))
  }

  predicate VictimInPlace(v: Vfs, parent: Path, parentInode: Inode, victim: Dentry, inode: Inode) {
    && InodeOf(v, victim) == Some(inode)
    && ParentOf(v, victim) == parent.dentry
    && InodeOf(v, parent.dentry) == Some(parentInode)
  }

  function BeginCleanup(c: Context, seen: Vfs, v: Vfs, parent: Path, victim: Dentry, directory: bool)
    : (Context, Errno) {
    if InodeOf(seen, parent.dentry).None? || !IsDirectory(seen, InodeOf(seen, parent.dentry).value) then (c, EINVAL)
    else if InodeOf(seen, victim).None? then (c, ESTALE)
    else
      var parentInode, inode := InodeOf(seen, parent.dentry).value, InodeOf(seen, victim).value;
      if ParentOf(seen, victim) != parent.dentry || IsDirectory(seen, inode) != directory then (c, ESTALE)
      else if !VictimInPlace(v, parent, parentInode, victim, inode)
              || !Tracked(c, v, parent, parentInode, victim, inode)
      then (c, ESTALE)
      else ArmCleanup(c, parent, parentInode, victim, inode, directory, false)
  }

  function BeginOrphanCleanup(c: Context, seen: Vfs, v: Vfs, parent: Path, victim: Dentry, directory: bool)
    : (Context, Errno) {
    if InodeOf(seen, parent.dentry).None? || !IsDirectory(seen, InodeOf(seen, parent.dentry).value) then (c, EINVAL)
    else if InodeOf(seen, c.provider.path.dentry).None? then (c, EINVAL)
    else
      var parentInode, inode := InodeOf(seen, parent.dentry).value, InodeOf(seen, c.provider.path.dentry).value;
      if !c.armed.phase.NoPhase? || victim != c.provider.path.dentry
         || !VictimInPlace(v, parent, parentInode, victim, inode) || IsDirectory(v, inode) != directory
      then (c, ESTALE)
      else ArmCleanup(c, parent, parentInode, victim, inode, directory, true)
  }

  function BeginOrphanMarker(c: Context, v: Vfs): (Context, Errno) {
    if InodeOf(v, c.provider.path.dentry) != Some(c.provider.inode) then (c, ESTALE)
    else Arm(c, DISARMED.(phase := OrphanMarker))
  }

  // ----- hooks that only read -----

  function StagingPin(c: Context): Option<Pin> {
    if c.staging.Some? then Some(Pin(c.staging.value.path, c.staging.value.inode)) else None
  }

  function StagingParent(c: Context): Option<Pin> {
    if c.staging.Some? then Some(c.staging.value.parent) else None
  }

  predicate AllowsPermission(c: Context, v: Vfs, inode: Inode, mask: set<Access>) {
    match c.armed.phase
    case SourceRead => InodeMatches(v, inode, Some(c.provider)) && ReadMask(v, inode, mask)
    case Create =>
      if InodeMatches(v, inode, c.armed.provider) then ReadMask(v, inode, mask)
      else InodeMatches(v, inode, c.armed.parent) && ParentMask(mask)
    case Populate =>
      if InodeMatches(v, inode, Some(c.provider)) then ReadMask(v, inode, mask)
      else StagingValid(c, v) && InodeMatches(v, inode, StagingPin(c)) && StagingMask(v, inode, mask)
    case PublishLink | PublishRename =>
      && StagingValid(c, v)
      && if InodeMatches(v, inode, StagingPin(c)) then ReadMask(v, inode, mask)
         else if InodeMatches(v, inode, c.armed.parent) then ParentMask(mask)
         else c.armed.phase.PublishRename? && InodeMatches(v, inode, StagingParent(c)) && ParentMask(mask)
    case Cleanup => InodeMatches(v, inode, c.armed.parent) && ParentMask(mask)
    case _ => false
  }

  predicate AllowsLink(c: Context, v: Vfs, from: Dentry, dir: Inode, to: Dentry) {
    && c.armed.phase.PublishLink? && StagingDentry(c, v, from)
    && InodeMatches(v, dir, c.armed.parent)
    && c.armed.dentry == Some(to)
    && ParentOf(v, to) == c.armed.parent.value.path.dentry
    && InodeOf(v, to).None?
  }

  predicate AllowsUnlink(c: Context, v: Vfs, dir: Inode, d: Dentry, directory: bool) {
    && c.armed.phase.Cleanup? && c.armed.directory == directory
    && InodeMatches(v, dir, c.armed.parent)
    && c.armed.dentry == Some(d)
    && InodeOf(v, d).Some? && c.armed.inode == InodeOf(v, d)
    && ParentOf(v, d) == c.armed.parent.value.path.dentry
    && IsDirectory(v, InodeOf(v, d).value) == directory
  }

  predicate AllowsRename(c: Context, v: Vfs, fromDir: Inode, from: Dentry, toDir: Inode, to: Dentry) {
    && c.armed.phase.PublishRename? && StagingDentry(c, v, from)
    && InodeMatches(v, fromDir, StagingParent(c))
    && InodeMatches(v, toDir, c.armed.parent)
    && c.armed.dentry == Some(to)
    && ParentOf(v, to) == c.armed.parent.value.path.dentry
    && InodeOf(v, to).None?
  }

  predicate AllowsSetattr(c: Context, v: Vfs, d: Dentry) {
    c.armed.phase.Populate? && StagingDentry(c, v, d)
  }

  datatype XattrName = SdXattr | PosixAcl | CapsXattr | StagingXattr | OtherXattr

  predicate AllowsSetxattr(c: Context, v: Vfs, d: Dentry, name: XattrName) {
    && (name.StagingXattr? || name.OtherXattr?)
    && (|| (c.armed.phase.Populate? && StagingDentry(c, v, d))
        || (c.armed.phase.OrphanMarker? && name.StagingXattr? && d == c.provider.path.dentry
            && InodeOf(v, d) == Some(c.provider.inode)))
  }

  predicate AllowsCapabilitySetxattr(c: Context, v: Vfs, d: Dentry, userNs: nat) {
    && c.armed.cloneActive && c.armed.phase.Populate? && userNs == c.userNs && StagingValid(c, v)
    && (c.armed.cloneHookSeen || StagingDentry(c, v, d))
  }

  function CapabilityHook(c: Context, v: Vfs, d: Dentry, userNs: nat): Context {
    if AllowsCapabilitySetxattr(c, v, d, userNs) then c.(armed := c.armed.(cloneHookSeen := true)) else c
  }

  /** `current` is the provider's capability xattr, read again just before. */
  function CloneStart(c: Context, v: Vfs, value: Bytes, current: Option<Bytes>, userNs: nat): (Context, Errno) {
    if value == [] then (c, EINVAL)
    else if !c.armed.phase.Populate? || userNs != c.userNs || !StagingValid(c, v) then (c, EPERM)
    else if c.capability != Some(value) || current != Some(value) then (c, ESTALE)
    else (c.(armed := c.armed.(cloneActive := true, cloneHookSeen := false)), OK)
  }

  function CloneEnd(c: Context): Context {
    c.(armed := c.armed.(cloneActive := false, cloneHookSeen := false))
  }

  // ----- files -----

  /** `opaquePath` stands for `FMODE_EXEC` or `FMODE_PATH`; `stamped` is history: the
      phase in which the file was bound or last resumed. */
  datatype File = File(
    path: Path,
    inode: Inode,
    reading: bool,
    writing: bool,
    opaquePath: bool,
    ctx: Option<Ctx>,
    generation: nat,
    managed: bool,
    inherited: bool,
    granted: nat,
    stamped: Phase)

  predicate FilePathAllowed(c: Context, v: Vfs, f: File) {
    match c.armed.phase
    case SourceRead => PathMatches(v, f.path, c.provider.path, c.provider.inode) && f.inode == c.provider.inode
    case Create =>
      && c.armed.parent.Some?
      && (if c.armed.anonymous then ParentOf(v, f.path.dentry) == c.armed.parent.value.path.dentry
          else c.armed.createSeen && c.armed.initSeen && c.armed.dentry == Some(f.path.dentry))
      && c.armed.parent.value.path.mnt == f.path.mnt
      && InodeOf(v, f.path.dentry).Some?
      && c.pending == Some(f.inode)
      && FormatOf(v, f.inode) == c.armed.format
    case Populate =>
      || (PathMatches(v, f.path, c.provider.path, c.provider.inode) && f.inode == c.provider.inode)
      || StagingPath(c, v, f.path, f.inode)
    case _ => false
  }

  predicate IsProvider(c: Context, v: Vfs, f: File) {
    || PathMatches(v, f.path, c.provider.path, c.provider.inode)
    || (c.armed.provider.Some? && PathMatches(v, f.path, c.armed.provider.value.path, c.armed.provider.value.inode))
  }

  predicate FileModeAllowed(c: Context, v: Vfs, f: File) {
    !f.opaquePath && !(IsProvider(c, v, f) && f.writing)
  }

  predicate FileAllowed(c: Context, v: Vfs, f: File) {
    FilePathAllowed(c, v, f) && FileModeAllowed(c, v, f)
  }

  datatype Verdict = Ordinary | Allow | Deny

  /** What the permission hook says about a file bound to context `id`, when the
      current task carries `current`. */
  function FilePermission(c: Context, id: Ctx, current: Option<Ctx>, v: Vfs, f: File, mask: set<Access>): Verdict {
    if f.ctx != Some(id) then Ordinary
    else if current != Some(id) || f.generation != c.generation then Deny
    else if FileAllowed(c, v, f)
            && (if IsProvider(c, v, f) then ReadMask(v, f.inode, mask) else StagingMask(v, f.inode, mask))
    then Allow else Deny
  }

  function FileMetadata(c: Context, id: Ctx, current: Option<Ctx>, v: Vfs, f: File, write: bool): Verdict {
    if f.ctx != Some(id) then Ordinary
    else if current != Some(id) || f.generation != c.generation then Deny
    else
      var source := PathMatches(v, f.path, c.provider.path, c.provider.inode) && f.inode == c.provider.inode;
      var staging := StagingPath(c, v, f.path, f.inode);
      var allowed := if c.armed.phase.Populate? then (if write then staging else source || staging)
                     else !write && c.armed.phase.SourceRead? && source;
      if allowed then Allow else Deny
  }

  /** The open hook on a file already bound to context `id`. */
  function FileReopen(c: Context, id: Ctx, current: Option<Ctx>, v: Vfs, f: File): Verdict {
    if f.ctx != Some(id) then Ordinary
    else if current != Some(id) || f.generation != c.generation then Deny
    else if FileAllowed(c, v, f) then Allow else Deny
  }

  predicate Resumable(c: Context, id: Ctx, v: Vfs, f: File) {
    c.armed.phase.SourceRead? && f.ctx == Some(id) && IsDirectory(v, f.inode) && f.reading && FileAllowed(c, v, f)
  }
}
