/** Every interleaving of copy-up: tasks that enter and leave contexts, the
    operations and hooks of attached tasks, files that are bound to a context, and
    a filesystem that may change arbitrarily between any two steps. */
module CopyUpMachine {
  import opened Widths
  import opened CopyUp

  /** Where a task is inside enter or leave: it has won the attachment, also holds a
      reference, has cleared its pointer, or only has the reference left to drop. */
  datatype TaskPc = Calm | Attaching(c: Ctx) | Referencing(c: Ctx) | Detaching(c: Ctx) | Dropping(c: Ctx)

  datatype Task = Task(ctx: Option<Ctx>, pc: TaskPc)

  /** `born` is history: every inode that has existed so far. */
  datatype State = State(
    vfs: Vfs,
    contexts: seq<Context>,
    tasks: seq<Task>,
    files: seq<File>,
    born: set<Inode>)

  /** What an attached task does to its own context.  `seen` is what the operation
      saw of the filesystem before it took the context's lock. */
  datatype Op =
    | DoSourceRead
    | DoOrphanMarker
    | DoCreate(seen: Vfs, provider: Path, effective: Option<Bytes>, parent: Path, dest: Option<Dentry>, format: Format,
               anonymous: bool)
    | DoDentryCreate(d: Dentry, format: Format)
    | DoCreateHook(dir: Inode, d: Dentry, format: Format)
    | DoConfirm(p: Path)
    | DoBind(seen: Vfs, p: Path)
    | DoRebind(seen: Vfs, p: Path)
    | DoPopulate
    | DoPublish(seen: Vfs, parent: Path, target: Dentry, rename: bool)
    | DoFinishPublish(seen: Vfs, p: Path)
    | DoCleanup(seen: Vfs, parent: Path, victim: Dentry, directory: bool)
    | DoOrphanCleanup(seen: Vfs, parent: Path, victim: Dentry, directory: bool)
    | DoEnd
    | DoClone(value: Bytes, current: Option<Bytes>, userNs: nat)
    | DoCapabilityHook(d: Dentry, userNs: nat)
    | DoCloneEnd

  datatype Action =
    | Environment(v: Vfs)
    | Begin(seen: Vfs, provider: Path, sd: Bytes, capability: Option<Bytes>, userNs: nat)
    | Get(c: Ctx)
    | Put(c: Ctx)
    | EnterAttach(t: nat, c: Ctx)
    | EnterReference(t: nat)
    | EnterPublish(t: nat)
    | LeaveDetach(t: nat)
    | LeaveRelease(t: nat)
    | LeaveDrop(t: nat)
    | Operate(t: nat, op: Op)
    | InitHook(t: nat, i: Inode, format: Format, dir: Inode, name: string)
    | TmpfileHook(t: nat, i: Inode, format: Format, superblock: nat)
    | Instantiate(t: nat, d: Dentry, i: Inode)
    | Open(t: nat, path: Path, inode: Inode, reading: bool, writing: bool, opaquePath: bool)
    | Resume(t: nat, f: nat)
    | Release(f: nat)
    | Adopt(t: nat, outer: nat, f: nat)

  function Apply(c: Context, v: Vfs, op: Op): Context {
    match op
    case DoSourceRead => Arm(c, DISARMED.(phase := SourceRead)).0
    case DoOrphanMarker => BeginOrphanMarker(c, v).0
    case DoCreate(seen, provider, effective, parent, dest, format, anonymous) =>
      BeginCreate(c, seen, provider, effective, parent, dest, format, anonymous).0
    case DoDentryCreate(d, format) => DentryCreate(c, v, d, format).0
    case DoCreateHook(dir, d, format) => CreateHook(c, v, dir, d, format)
    case DoConfirm(p) => ConfirmNamed(c, v, p).0
    case DoBind(seen, p) => Bind(c, seen, v, p).0
    case DoRebind(seen, p) => Rebind(c, seen, v, p).0
    case DoPopulate => BeginPopulate(c, v).0
    case DoPublish(seen, parent, target, rename) => BeginPublish(c, seen, v, parent, target, rename).0
    case DoFinishPublish(seen, p) => FinishPublish(c, seen, v, p).0
    case DoCleanup(seen, parent, victim, directory) => BeginCleanup(c, seen, v, parent, victim, directory).0
    case DoOrphanCleanup(seen, parent, victim, directory) => BeginOrphanCleanup(c, seen, v, parent, victim, directory).0
    case DoEnd => Clear(c)
    case DoClone(value, current, userNs) => CloneStart(c, v, value, current, userNs).0
    case DoCapabilityHook(d, userNs) => CapabilityHook(c, v, d, userNs)
    case DoCloneEnd => CloneEnd(c)
  }

  // ----- tasks and contexts -----

  /** The context of a task that is attached and not inside enter or leave. */
  predicate Owned(s: State, t: nat) {
    && t < |s.tasks|
    && s.tasks[t].pc.Calm?
    && s.tasks[t].ctx.Some?
    && s.tasks[t].ctx.value < |s.contexts|
    && s.contexts[s.tasks[t].ctx.value].hold.attached
  }

  function CurrentOf(s: State, t: nat): Option<Ctx> {
    if t < |s.tasks| then s.tasks[t].ctx else None
  }

  function SetContext(s: State, c: Ctx, x: Context): State
    requires c < |s.contexts|
  {
    s.(contexts := s.contexts[c := x])
  }

  function SetHold(s: State, c: Ctx, hold: Holders): State
    requires c < |s.contexts|
  {
    SetContext(s, c, s.contexts[c].(hold := hold))
  }

  function SetTask(s: State, t: nat, task: Task): State
    requires t < |s.tasks|
  {
    s.(tasks := s.tasks[t := task])
  }

  function AddRef(s: State, c: Ctx): State
    requires c < |s.contexts|
  {
    var h := s.contexts[c].hold;
    SetContext(s, c, s.contexts[c].(hold := h.(refs := h.refs + 1)))
  }

  function DropRef(s: State, c: Ctx): State
    requires c < |s.contexts|
  {
    var h := s.contexts[c].hold;
    SetContext(s, c, s.contexts[c].(hold := h.(refs := if h.refs == 0 then 0 else h.refs - 1)))
  }

  /** Tasks that are between winning the attachment of `c` and taking a reference. */
  function Entering(tasks: seq<Task>, c: Ctx): nat {
    if tasks == [] then 0 else (if tasks[0].pc == Attaching(c) then 1 else 0) + Entering(tasks[1..], c)
  }

  /** A caller must own a reference while it enters, so that one cannot be dropped. */
  predicate SpareOwner(s: State, c: Ctx) {
    c < |s.contexts| && s.contexts[c].hold.owners > Entering(s.tasks, c)
  }

  function EnterLeave(s: State, x: Action): State
    requires x.EnterAttach? || x.EnterReference? || x.EnterPublish? || x.LeaveDetach? || x.LeaveRelease? || x.LeaveDrop?
  {
    if x.t >= |s.tasks| then s
    else
      var task := s.tasks[x.t];
      match x
      case EnterAttach(t, c) =>
        if !SpareOwner(s, c) || !task.pc.Calm? || task.ctx.Some? || s.contexts[c].hold.attached then s
        else SetTask(SetHold(s, c, s.contexts[c].hold.(attached := true)), t, Task(None, Attaching(c)))
      case EnterReference(t) =>
        if !task.pc.Attaching? || task.pc.c >= |s.contexts| then s
        else
          var c := task.pc.c;
          if s.contexts[c].hold.refs == 0
          then SetTask(SetHold(s, c, s.contexts[c].hold.(attached := false)), t, Task(None, Calm))
          else SetTask(AddRef(s, c), t, Task(None, Referencing(c)))
      case EnterPublish(t) =>
        if task.pc.Referencing? then SetTask(s, t, Task(Some(task.pc.c), Calm)) else s
      case LeaveDetach(t) =>
        if !task.pc.Calm? || task.ctx.None? || task.ctx.value >= |s.contexts| then s
        else
          var c := task.ctx.value;
          SetTask(SetContext(s, c, Clear(s.contexts[c])), t, Task(None, Detaching(c)))
      case LeaveRelease(t) =>
        if !task.pc.Detaching? || task.pc.c >= |s.contexts| then s
        else
          var c := task.pc.c;
          SetTask(SetHold(s, c, s.contexts[c].hold.(attached := false)), t, Task(None, Dropping(c)))
      case LeaveDrop(t) =>
        if !task.pc.Dropping? || task.pc.c >= |s.contexts| then s
        else SetTask(DropRef(s, task.pc.c), t, Task(None, Calm))
  }

  function Owners(s: State, x: Action): State
    requires x.Begin? || x.Get? || x.Put?
  {
    match x
    case Begin(seen, provider, sd, capability, userNs) =>
      if InodeOf(seen, provider.dentry).None? || InodeOf(seen, provider.dentry).value !in s.born || sd == [] then s
      else s.(contexts := s.contexts + [Alloc(provider, InodeOf(seen, provider.dentry).value, sd, capability, userNs)])
    case Get(c) =>
      if c >= |s.contexts| || s.contexts[c].hold.owners == 0 then s
      else var h := s.contexts[c].hold; SetHold(s, c, h.(refs := h.refs + 1, owners := h.owners + 1))
    case Put(c) =>
      if !SpareOwner(s, c) then s
      else
        var h := s.contexts[c].hold;
        SetHold(s, c, h.(refs := if h.refs == 0 then 0 else h.refs - 1, owners := h.owners - 1))
  }

  // ----- creation hooks -----

  /** Hooks that see an inode the filesystem has just made; they see fresh ones. */
  function Creation(s: State, x: Action): State
    requires x.InitHook? || x.TmpfileHook? || x.Instantiate?
  {
    if !Owned(s, x.t) || x.i in s.born then s
    else
      var id := s.tasks[x.t].ctx.value;
      var c := s.contexts[id];
      var s1 := s.(born := s.born + {x.i});
      match x
      case InitHook(t, i, format, dir, name) => SetContext(s1, id, InitSecurity(c, s.vfs, i, format, dir, name).0)
      case TmpfileHook(t, i, format, superblock) =>
        SetContext(s1, id, PostCreateTmpfile(c, s.vfs, i, format, superblock))
      case Instantiate(t, d, i) =>
        if c.armed.phase.Create? && !c.armed.anonymous && c.armed.createSeen && c.armed.stackedSeen
           && c.armed.dentry == Some(d) && InodeOf(s.vfs, d).None?
        then SetContext(s1.(vfs := s.vfs.(inodes := s.vfs.inodes[d := i])), id, Made(c, i))
        else s
  }

  // ----- files -----

  function Files(s: State, x: Action): State
    requires x.Open? || x.Resume? || x.Release? || x.Adopt?
  {
    match x
    case Open(t, path, inode, reading, writing, opaquePath) =>
      var plain := File(path, inode, reading, writing, opaquePath, None, 0, false, false, 0, NoPhase);
      if Owned(s, t) && FileAllowed(s.contexts[s.tasks[t].ctx.value], s.vfs, plain)
         && s.contexts[s.tasks[t].ctx.value].hold.refs > 0
      then
        var id := s.tasks[t].ctx.value;
        var c := s.contexts[id];
        AddRef(s, id).(files := s.files + [plain.(ctx := Some(id), generation := c.generation, managed := true,
                                                  stamped := c.armed.phase)])
      else s.(files := s.files + [plain])
    case Resume(t, f) =>
      if f < |s.files| && Owned(s, t) &&
         var id := s.tasks[t].ctx.value;
         Resumable(s.contexts[id], id, s.vfs, s.files[f])
      then
        var c := s.contexts[s.tasks[t].ctx.value];
        s.(files := s.files[f := s.files[f].(generation := c.generation, stamped := c.armed.phase)])
      else s
    case Release(f) =>
      if f >= |s.files| || s.files[f].ctx.None? || s.files[f].ctx.value >= |s.contexts| then s
      else DropRef(s, s.files[f].ctx.value).(files := s.files[f := s.files[f].(ctx := None, generation := 0)])
    case Adopt(t, outer, f) =>
      if f < |s.files| && outer < |s.files| && Owned(s, t) &&
         var id := s.tasks[t].ctx.value;
         var c := s.contexts[id];
         && c.armed.phase.NoPhase?
         && StagingPath(c, s.vfs, s.files[f].path, s.files[f].inode)
         && s.files[outer].managed && s.files[outer].ctx.None?
         && s.files[f].ctx == Some(id) && s.files[f].generation == c.generation && !s.files[f].inherited
      then
        var id := s.tasks[t].ctx.value;
        DropRef(s, id).(files := s.files[f := s.files[f].(ctx := None, generation := 0, inherited := true,
                                                          granted := s.files[outer].granted)])
      else s
  }

  function Step(s: State, x: Action): State {
    match x
    case Environment(v) => s.(vfs := v, born := s.born + v.inodes.Values)
    case Begin(_, _, _, _, _) | Get(_) | Put(_) => Owners(s, x)
    case EnterAttach(_, _) | EnterReference(_) | EnterPublish(_) | LeaveDetach(_) | LeaveRelease(_) | LeaveDrop(_) =>
      EnterLeave(s, x)
    case Operate(t, op) =>
      if !Owned(s, t) then s
      else SetContext(s, s.tasks[t].ctx.value, Apply(s.contexts[s.tasks[t].ctx.value], s.vfs, op))
    case InitHook(_, _, _, _, _) | TmpfileHook(_, _, _, _) | Instantiate(_, _, _) => Creation(s, x)
    case Open(_, _, _, _, _, _) | Resume(_, _) | Release(_) | Adopt(_, _, _) => Files(s, x)
  }

  function Init(n: nat, v: Vfs): State {
    State(v, [], seq(n, i => Task(None, Calm)), [], v.inodes.Values)
  }

  function Execute(s: State, xs: seq<Action>): State {
    if xs == [] then s else Step(Execute(s, xs[..|xs| - 1]), xs[|xs| - 1])
  }
}
