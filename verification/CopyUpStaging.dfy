/** From a creation to a staging object, exactly: which outer creation a phase marks,
    which anonymous inode it takes, which name it confirms, what can be bound and bound
    anew, whose capability may be cloned, and which file is handed over. */
module CopyUpStaging {
  import opened Widths
  import opened CopyUp
  import opened CopyUpMachine
  import opened CopyUpLedger
  import opened CopyUpOrigins
  import opened CopyUpAdmission

  // ----- stacked creations -----

  /** The outer creation of a stack is the one the operation asked for. */
  predicate NamesOuter(op: Op, v: Vfs, d: Dentry, format: Format) {
    && op.DoCreate? && op.format == format
    && ParentOf(v, d) == op.parent.dentry
    && InodeOf(v, op.parent.dentry).Some? && InodeOf(v, op.parent.dentry) == InodeOf(op.seen, op.parent.dentry)
    && (if op.anonymous then op.dest.None? else op.dest == Some(d))
  }

  /** ... and it comes first, on a name that shows nothing and was admitted. */
  predicate MarksOuter(op: Op, k: Context, v: Vfs, d: Dentry, format: Format) {
    && NamesOuter(op, v, d, format) && InodeOf(v, d).None? && !k.armed.stackedSeen
    && (op.anonymous || k.generation in k.past.named)
  }

  lemma OuterAsAsked(op: Op, k: Context, v: Vfs, d: Dentry, format: Format)
    requires AsAsked(op, k.provider, k.providerSd, k.armed) && Ledger(k)
    ensures
      var (r, e) := DentryCreate(k, v, d, format);
      && r == (if MarksOuter(op, k, v, d, format) then k.(armed := k.armed.(stackedSeen := true)) else k)
      && e == (if NamesOuter(op, v, d, format) && !MarksOuter(op, k, v, d, format) then EACCES else OK)
  {
    hide Increasing;
    hide Generations;
    hide InodeOf;
    hide ParentOf;
    hide NameOf;
    if op.DoCreate? {
      assert k.armed.createSeen <==> k.generation in k.past.named;
      assert k.armed.parent.Some? && k.armed.parent.value.path == op.parent;
      hide Ledger;
      hide AsAsked;
    } else {
      assert !k.armed.phase.Create?;
    }
  }

  /** The anonymous inode of a stacked creation, on the file system of the asked parent. */
  predicate TakesAnonymous(op: Op, k: Context, v: Vfs, format: Format, superblock: nat) {
    && op.DoCreate? && op.anonymous && op.format == format
    && k.armed.stackedSeen && k.armed.stackedSd && k.pending.None?
    && InodeOf(op.seen, op.parent.dentry).Some?
    && superblock == SuperblockOf(v, InodeOf(op.seen, op.parent.dentry).value)
  }

  lemma AnonymousAsAsked(op: Op, k: Context, v: Vfs, i: Inode, format: Format, superblock: nat)
    requires AsAsked(op, k.provider, k.providerSd, k.armed)
    ensures
      var r := PostCreateTmpfile(k, v, i, format, superblock);
      if TakesAnonymous(op, k, v, format, superblock)
      then r.pending == Some(i) && i in r.past.made && r.past.made[i] == k.generation
      else r == k
  {
    hide NameOf;
  }

  /** The confirmed path is the created name where it was asked for, and shows an inode
      of the asked format. */
  predicate NamesCreated(op: Op, k: Context, v: Vfs, p: Path) {
    && op.DoCreate? && !op.anonymous && k.generation in k.past.named
    && op.dest == Some(p.dentry) && p.mnt == op.parent.mnt && ParentOf(v, p.dentry) == op.parent.dentry
    && InodeOf(v, op.parent.dentry).Some? && InodeOf(v, op.parent.dentry) == InodeOf(op.seen, op.parent.dentry)
    && InodeOf(v, p.dentry).Some? && FormatOf(v, InodeOf(v, p.dentry).value) == op.format
  }

  lemma ConfirmAsAsked(op: Op, k: Context, v: Vfs, p: Path)
    requires AsAsked(op, k.provider, k.providerSd, k.armed) && Ledger(k)
    ensures
      var (r, e) := ConfirmNamed(k, v, p);
      var own := k.generation in Generations(k.past.stamps) && k.pending == InodeOf(v, p.dentry) &&
                 !k.armed.stackedSeen;
      var stacked := k.armed.stackedSeen && k.armed.stackedSd && k.pending.None?;
      && (e.EINVAL? <==> InodeOf(v, p.dentry).None?)
      && (e.OK? <==> NamesCreated(op, k, v, p) && (own || stacked))
      && (r != k <==> NamesCreated(op, k, v, p) && stacked)
      && (r != k ==> r.pending == InodeOf(v, p.dentry) && r.created != [] &&
                     r.created[|r.created| - 1] == Created(p, InodeOf(v, p.dentry).value, k.armed.parent.value))
  {
    hide Increasing;
    hide Generations;
  }

  /** Over every run, while a phase is armed: the outer creation, the anonymous inode and
      the confirmed name are taken exactly if they are what was asked for. */
  lemma StackedCreationExactly(n: nat, v: Vfs, xs: seq<Action>, c: Ctx, d: Dentry, i: Inode, p: Path, format: Format,
                               superblock: nat)
    returns (j: nat, op: Op)
    requires
      var s := Execute(Init(n, v), xs);
      c < |s.contexts| && !s.contexts[c].armed.phase.NoPhase?
    ensures Ordered(n, v, xs, c, j, op)
    ensures
      var s := Execute(Init(n, v), xs);
      var k := s.contexts[c];
      && (DentryCreate(k, s.vfs, d, format).0 != k <==> MarksOuter(op, k, s.vfs, d, format))
      && (DentryCreate(k, s.vfs, d, format).1.EACCES? <==>
            NamesOuter(op, s.vfs, d, format) && !MarksOuter(op, k, s.vfs, d, format))
      && (PostCreateTmpfile(k, s.vfs, i, format, superblock) != k ==> TakesAnonymous(op, k, s.vfs, format, superblock))
      && (TakesAnonymous(op, k, s.vfs, format, superblock) ==>
            PostCreateTmpfile(k, s.vfs, i, format, superblock).pending == Some(i))
      && (ConfirmNamed(k, s.vfs, p).0 != k <==>
            NamesCreated(op, k, s.vfs, p) && k.armed.stackedSeen && k.armed.stackedSd && k.pending.None?)
  {
    hide ArmedAt;
    hide AsAsked;
    hide Ledger;
    hide DentryCreate;
    hide PostCreateTmpfile;
    hide ConfirmNamed;
    hide NamesCreated;
    hide NamesOuter;
    var s := Execute(Init(n, v), xs);
    var k := s.contexts[c];
    j, op := PhaseWasAsked(n, v, xs, c);
    AlwaysLedgers(n, v, xs);
    OuterAsAsked(op, k, s.vfs, d, format);
    AnonymousAsAsked(op, k, s.vfs, i, format, superblock);
    ConfirmAsAsked(op, k, s.vfs, p);
    hide MarksOuter;
    hide TakesAnonymous;
  }

  // ----- binding -----

  /** A path that can be staged: it shows a supported object in a directory that is there. */
  predicate Stageable(seen: Vfs, p: Path) {
    && InodeOf(seen, p.dentry).Some? && !FormatOf(seen, InodeOf(seen, p.dentry).value).OtherFormat?
    && InodeOf(seen, ParentOf(seen, p.dentry)).Some?
  }

  /** A bind succeeds exactly if nothing is armed or staged yet, the path could be staged
      when it was looked at and is still in the same place, and it shows the very inode
      the context is waiting for; what it leaves is valid staging of that inode. */
  lemma BindsExactlyThePendingInode(c: Context, seen: Vfs, v: Vfs, p: Path)
    ensures
      var (r, e) := Bind(c, seen, v, p);
      && (e.OK? <==>
            && c.armed.phase.NoPhase? && c.staging.None? && c.pending.Some?
            && Stageable(seen, p) && InodeOf(v, p.dentry) == c.pending
            && ParentOf(v, p.dentry) == ParentOf(seen, p.dentry)
            && InodeOf(v, ParentOf(v, p.dentry)) == InodeOf(seen, ParentOf(seen, p.dentry)))
      && (e.OK? ==> StagingValid(r, v) && r.staging.value.path == p && Some(r.staging.value.inode) == c.pending &&
                    r.pending.None?)
      && (!e.OK? ==> r == c)
  {}

  /** A rebind succeeds exactly if nothing is armed and the path is a valid place of the
      staged inode: the same mount and directory. */
  lemma RebindsExactlyTheStagedInode(c: Context, v: Vfs, p: Path)
    requires c.staging.Some? ==> c.staging.value.parent.path.mnt == c.staging.value.path.mnt
    ensures
      var (r, e) := Rebind(c, v, v, p);
      && (e.OK? <==>
            && c.armed.phase.NoPhase? && c.staging.Some?
            && StagingValid(c.(staging := Some(c.staging.value.(path := p))), v))
      && (e.OK? ==> r == c.(staging := Some(c.staging.value.(path := p))))
      && (!e.OK? ==> r == c)
  {}

  // ----- cloning a capability -----

  /** Over every run a clone starts exactly while the staging object is being populated,
      in the user namespace the context was begun in, for exactly the capability it was
      begun with, if the provider still has that one. */
  lemma ClonesExactlyTheBegunCapability(n: nat, v: Vfs, xs: seq<Action>, c: Ctx, value: Bytes, current: Option<Bytes>,
                                        userNs: nat)
    returns (b: nat)
    requires c < |Execute(Init(n, v), xs).contexts|
    ensures
      var s := Execute(Init(n, v), xs);
      var k := s.contexts[c];
      var (r, e) := CloneStart(k, s.vfs, value, current, userNs);
      && BegunAt(Init(n, v), xs, b, c)
      && (e.OK? <==>
            && k.armed.phase.Populate? && StagingValid(k, s.vfs) && userNs == xs[b].userNs
            && value != [] && xs[b].capability == Some(value) && current == Some(value))
      && (e.OK? ==> r.armed.cloneActive && !r.armed.cloneHookSeen)
      && (!e.OK? ==> r == k)
  {
    hide Step;
    hide StagingValid;
    var s0, k := Init(n, v), Execute(Init(n, v), xs).contexts[c];
    AlwaysOriginated(n, v, xs, c);
    b :| BegunAt(s0, xs, b, c) && BegunFrom(xs[b], k);
    hide BegunAt;
  }

  // ----- handing a file over -----

  /** A staging file is handed to an outer file exactly if the context's own task does it
      between phases, the staging is valid and is this file, which was stamped in the
      latest phase and not handed over before, and the outer file is managed and not
      itself internal; the file then has the outer file's grant and the context one
      reference less. */
  lemma AdoptsExactlyTheStagingFile(s: State, t: nat, outer: nat, f: nat)
    requires Owned(s, t) && f < |s.files| && outer < |s.files|
    ensures
      var id := s.tasks[t].ctx.value;
      var k, file, r := s.contexts[id], s.files[f], Step(s, Adopt(t, outer, f));
      if && k.armed.phase.NoPhase? && StagingPath(k, s.vfs, file.path, file.inode)
         && file.ctx == Some(id) && file.generation == k.generation && !file.inherited
         && s.files[outer].managed && s.files[outer].ctx.None?
      then
        && r.files == s.files[f := file.(ctx := None, generation := 0, inherited := true,
                                         granted := s.files[outer].granted)]
        && r.contexts == s.contexts[id := k.(hold := r.contexts[id].hold)]
        && (k.hold.refs > 0 ==> r.contexts[id].hold.refs + 1 == k.hold.refs)
      else r == s
  {
    hide StagingPath;
  }

  /** A file is resumed exactly if it is this context's own, opened for reading and not
      for writing on the provider directory, and a source-read phase is armed; it is then
      admitted in that phase. */
  lemma ResumesExactlyTheProviderDirectory(s: State, t: nat, f: nat)
    requires Owned(s, t) && f < |s.files|
    ensures
      var id := s.tasks[t].ctx.value;
      var k, file, r := s.contexts[id], s.files[f], Step(s, Resume(t, f));
      if && k.armed.phase.SourceRead? && file.ctx == Some(id) && IsSource(k, s.vfs, file)
         && IsDirectory(s.vfs, file.inode) && file.reading && !file.writing && !file.opaquePath
      then
        && r == s.(files := s.files[f := file.(generation := k.generation, stamped := SourceRead)])
        && FileReopen(k, id, Some(id), s.vfs, r.files[f]).Allow?
      else r == s
  {}

  // ----- the end of a clone -----

  lemma OnlyCloningActivates(s: State, x: Action, c: Ctx)
    requires c < |s.contexts| && !s.contexts[c].armed.cloneActive
    requires !(x.Operate? && x.op.DoClone?)
    ensures c < |Step(s, x).contexts| && !Step(s, x).contexts[c].armed.cloneActive
  {
    hide Step;
    OneContextAtATime(s, x);
    ContextMoves(s, x, c);
    var k := s.contexts[c];
    if x.Operate? {
      ApplyActivatesNothing(k, s.vfs, x.op);
    } else if x.InitHook? {
      HooksActivateNothing(k, s.vfs, x.i, x.format, x.dir, x.name, 0);
    } else if x.TmpfileHook? {
      HooksActivateNothing(k, s.vfs, x.i, x.format, 0, "", x.superblock);
    }
  }

  lemma ApplyActivatesNothing(k: Context, v: Vfs, op: Op)
    requires !op.DoClone? && !k.armed.cloneActive
    ensures !Apply(k, v, op).armed.cloneActive
  {
    hide Apply;
    if op.DoSourceRead? || op.DoOrphanMarker? || op.DoPopulate? || op.DoCreate? || op.DoPublish? ||
       op.DoCleanup? || op.DoOrphanCleanup? {
      ArmingActivatesNothing(k, v, op);
    } else {
      QuietOpsActivateNothing(k, v, op);
    }
  }

  lemma ArmingActivatesNothing(k: Context, v: Vfs, op: Op)
    requires op.DoSourceRead? || op.DoOrphanMarker? || op.DoPopulate? || op.DoCreate? || op.DoPublish? ||
             op.DoCleanup? || op.DoOrphanCleanup?
    requires !k.armed.cloneActive
    ensures !Apply(k, v, op).armed.cloneActive
  {
    hide StagingValid;
    hide Tracked;
    hide CreateArguments;
    hide VictimInPlace;
    hide InodeOf;
    hide ParentOf;
  }

  lemma QuietOpsActivateNothing(k: Context, v: Vfs, op: Op)
    requires op.DoDentryCreate? || op.DoCreateHook? || op.DoConfirm? || op.DoBind? || op.DoRebind? ||
             op.DoFinishPublish? || op.DoEnd? || op.DoCapabilityHook? || op.DoCloneEnd?
    requires !k.armed.cloneActive
    ensures !Apply(k, v, op).armed.cloneActive
  {
    hide ConfirmArguments;
    hide AllowsCreate;
    hide PublishedMatches;
    hide InodeOf;
    hide ParentOf;
    hide AllowsCapabilitySetxattr;
  }

  lemma HooksActivateNothing(k: Context, v: Vfs, i: Inode, format: Format, dir: Inode, name: string, superblock: nat)
    requires !k.armed.cloneActive
    ensures !InitSecurity(k, v, i, format, dir, name).0.armed.cloneActive
    ensures !PostCreateTmpfile(k, v, i, format, superblock).armed.cloneActive
  {
    hide InitNamed;
  }

  lemma {:induction false} StaysInactive(s: State, xs: seq<Action>, c: Ctx)
    requires c < |s.contexts| && !s.contexts[c].armed.cloneActive
    requires forall i :: 0 <= i < |xs| ==> !(xs[i].Operate? && xs[i].op.DoClone?)
    ensures c < |Execute(s, xs).contexts| && !Execute(s, xs).contexts[c].armed.cloneActive
  {
    hide Step;
    if xs != [] {
      StaysInactive(s, xs[..|xs| - 1], c);
      OnlyCloningActivates(Execute(s, xs[..|xs| - 1]), xs[|xs| - 1], c);
    }
  }

  /** Once a clone is over, or its phase is, no capability write is admitted over any
      continuation in which no clone is begun. */
  lemma NoCapabilityAfterTheClone(s: State, t: nat, op: Op, xs: seq<Action>, d: Dentry, userNs: nat)
    requires Owned(s, t) && (op.DoCloneEnd? || op.DoEnd?)
    requires forall i :: 0 <= i < |xs| ==> !(xs[i].Operate? && xs[i].op.DoClone?)
    ensures
      var id := s.tasks[t].ctx.value;
      var r := Execute(Step(s, Operate(t, op)), xs);
      id < |r.contexts| && !AllowsCapabilitySetxattr(r.contexts[id], r.vfs, d, userNs)
  {
    StaysInactive(Step(s, Operate(t, op)), xs, s.tasks[t].ctx.value);
    hide Execute;
  }
}
