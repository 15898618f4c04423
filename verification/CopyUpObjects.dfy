/** What copy-up binds, deletes, publishes and writes: which inodes its hooks can ever
    let go of, while the caller holds the lock of the parent it creates in. */
module CopyUpObjects {
  import opened Widths
  import opened CopyUp
  import opened CopyUpMachine
  import opened CopyUpAttachment
  import opened CopyUpSealing
  import opened CopyUpLedger
  import opened CopyUpLock

  // ----- inodes the context may delete -----

  /** Everything the context remembers as its own was made by its own creations,
      and the provider existed before them. */
  predicate Honest(c: Context, born: set<Inode>) {
    && c.provider.inode in born
    && (forall i :: i in c.past.made ==> i in born && i != c.provider.inode)
    && (c.pending.Some? ==> c.pending.value in c.past.made)
    && (forall k :: 0 <= k < |c.created| ==> c.created[k].inode in c.past.made)
    && (c.staging.Some? ==> c.staging.value.inode in c.past.made)
    && (c.armed.phase.Cleanup? && !c.armed.orphan ==> c.armed.inode.Some? && c.armed.inode.value in c.past.made)
  }

  /** The stacked confirmation registers what the dentry shows now; this is the
      condition that it still shows an inode the context's own create made. */
  predicate ConfirmsOwn(c: Context, v: Vfs, op: Op) {
    op.DoConfirm? && ConfirmsStacked(c, v, op.p) ==> InodeOf(v, op.p.dentry).value in c.past.made
  }

  lemma ConfirmHonestIff(c: Context, v: Vfs, p: Path, born: set<Inode>)
    requires Honest(c, born)
    ensures Honest(ConfirmNamed(c, v, p).0, born) <==> ConfirmsOwn(c, v, DoConfirm(p))
  {
    var d := ConfirmNamed(c, v, p).0;
    if ConfirmsStacked(c, v, p) && ConfirmsOwn(c, v, DoConfirm(p)) {
      forall k | 0 <= k < |d.created| ensures d.created[k].inode in d.past.made {
        if k < |c.created| {
          assert d.created[k] == c.created[k];
        }
      }
    }
  }

  lemma CleanupHonest(c: Context, seen: Vfs, v: Vfs, parent: Path, victim: Dentry, directory: bool, born: set<Inode>)
    requires Honest(c, born)
    ensures Honest(BeginCleanup(c, seen, v, parent, victim, directory).0, born)
    ensures Honest(BeginOrphanCleanup(c, seen, v, parent, victim, directory).0, born)
  {}

  lemma BindingHonest(c: Context, seen: Vfs, v: Vfs, p: Path, born: set<Inode>)
    requires Honest(c, born)
    ensures Honest(Bind(c, seen, v, p).0, born) && Honest(Rebind(c, seen, v, p).0, born)
  {}

  lemma FinishHonest(c: Context, seen: Vfs, v: Vfs, p: Path, born: set<Inode>)
    requires Honest(c, born)
    ensures Honest(FinishPublish(c, seen, v, p).0, born)
  {
    hide PublishedMatches;
  }

  /** Nothing the context remembers as its own changes, and no cleanup is armed. */
  predicate ObjectsKept(c: Context, d: Context) {
    && d.provider == c.provider && d.past.made == c.past.made && d.created == c.created && d.staging == c.staging
    && (d.pending.None? || d.pending == c.pending)
    && (d.armed.phase.Cleanup? ==> d.armed.phase == c.armed.phase && d.armed.orphan == c.armed.orphan &&
                                   d.armed.inode == c.armed.inode)
  }

  lemma QuietOpsKeepObjects(c: Context, v: Vfs, op: Op)
    requires !op.DoConfirm? && !op.DoBind? && !op.DoRebind? && !op.DoFinishPublish? && !op.DoCleanup? &&
             !op.DoOrphanCleanup?
    ensures ObjectsKept(c, Apply(c, v, op))
  {
    hide Apply;
    hide ObjectsKept;
    if StaysInPhase(op) {
      PhaseOpsKeepObjects(c, v, op);
    } else {
      ArmingOpsKeepObjects(c, v, op);
    }
  }

  lemma PhaseOpsKeepObjects(c: Context, v: Vfs, op: Op)
    requires op.DoCreateHook? || op.DoEnd? || op.DoClone? || op.DoCapabilityHook? || op.DoCloneEnd?
    ensures ObjectsKept(c, Apply(c, v, op))
  {
    hide StagingValid;
    hide AllowsCreate;
    hide AllowsCapabilitySetxattr;
  }

  lemma ArmingOpsKeepObjects(c: Context, v: Vfs, op: Op)
    requires !StaysInPhase(op) && !op.DoCleanup? && !op.DoOrphanCleanup?
    ensures ObjectsKept(c, Apply(c, v, op))
  {
    hide CreateArguments;
    hide StagingValid;
  }

  lemma ApplyHonest(c: Context, v: Vfs, op: Op, born: set<Inode>)
    requires Honest(c, born) && ConfirmsOwn(c, v, op)
    ensures Honest(Apply(c, v, op), born)
  {
    hide Honest;
    hide ConfirmNamed;
    hide BeginCleanup;
    hide BeginOrphanCleanup;
    hide Bind;
    hide Rebind;
    hide FinishPublish;
    match op {
      case DoConfirm(p) => ConfirmHonestIff(c, v, p, born);
      case DoCleanup(seen, parent, victim, directory) => CleanupHonest(c, seen, v, parent, victim, directory, born);
      case DoOrphanCleanup(seen, parent, victim, directory) =>
        CleanupHonest(c, seen, v, parent, victim, directory, born);
      case DoBind(seen, p) => BindingHonest(c, seen, v, p, born);
      case DoRebind(seen, p) => BindingHonest(c, seen, v, p, born);
      case DoFinishPublish(seen, p) => FinishHonest(c, seen, v, p, born);
      case _ => KeptHonest(c, v, op, born);
    }
  }

  lemma KeptHonest(c: Context, v: Vfs, op: Op, born: set<Inode>)
    requires Honest(c, born)
    requires !op.DoConfirm? && !op.DoBind? && !op.DoRebind? && !op.DoFinishPublish? && !op.DoCleanup? &&
             !op.DoOrphanCleanup?
    ensures Honest(Apply(c, v, op), born)
  {
    hide Apply;
    QuietOpsKeepObjects(c, v, op);
  }

  lemma CreationHonest(c: Context, v: Vfs, i: Inode, format: Format, dir: Inode, name: string, superblock: nat,
                       born: set<Inode>)
    requires Honest(c, born) && i !in born
    ensures Honest(InitSecurity(c, v, i, format, dir, name).0, born + {i})
    ensures Honest(PostCreateTmpfile(c, v, i, format, superblock), born + {i})
    ensures Honest(Made(c, i), born + {i})
  {
    hide InitNamed;
    var d := InitSecurity(c, v, i, format, dir, name).0;
    forall k | 0 <= k < |d.created| ensures d.created[k].inode in d.past.made {
      if k < |c.created| {
        assert d.created[k] == c.created[k];
      }
    }
  }

  predicate AllHonest(s: State) {
    forall c :: 0 <= c < |s.contexts| ==> Honest(s.contexts[c], s.born)
  }

  predicate ConfirmsOwnAt(s: State, x: Action) {
    x.Operate? && Owned(s, x.t) ==> ConfirmsOwn(s.contexts[s.tasks[x.t].ctx.value], s.vfs, x.op)
  }

  /** The lock is enough: what a stacked confirmation finds was made by its own phase. */
  lemma LockMeansOwn(s: State, x: Action)
    requires NamesAreOwn(s)
    ensures ConfirmsOwnAt(s, x)
  {
    if x.Operate? && Owned(s, x.t) && x.op.DoConfirm? {
      var c := s.contexts[s.tasks[x.t].ctx.value];
      assert ShowsItsOwn(c, s.vfs);
      if ConfirmsStacked(c, s.vfs, x.op.p) {
        assert MadeNow(c, InodeOf(s.vfs, x.op.p.dentry).value);
      }
    }
  }

  lemma HonestGrows(c: Context, d: Context, born: set<Inode>, born': set<Inode>)
    requires Honest(c, born) && born <= born' && (d == c.(hold := d.hold) || d == Clear(c))
    ensures Honest(d, born')
  {}

  lemma BornGrows(s: State, x: Action)
    ensures s.born <= Step(s, x).born
    ensures (x.InitHook? || x.TmpfileHook? || x.Instantiate?) && Step(s, x).contexts != s.contexts ==>
              Step(s, x).born == s.born + {x.i}
  {
    hide Apply;
    hide InitSecurity;
    hide PostCreateTmpfile;
    hide FileAllowed;
    hide Resumable;
    hide StagingPath;
  }

  lemma StepHonest(s: State, x: Action)
    requires AllHonest(s) && ConfirmsOwnAt(s, x)
    ensures AllHonest(Step(s, x))
  {
    hide Honest;
    hide Step;
    hide Apply;
    hide InitSecurity;
    hide PostCreateTmpfile;
    hide ConfirmsOwn;
    var r := Step(s, x);
    BornGrows(s, x);
    forall c | 0 <= c < |r.contexts| ensures Honest(r.contexts[c], r.born) {
      ContextMoves(s, x, c);
      if c >= |s.contexts| {
        NewHonest(x, s.born);
        HonestGrows(r.contexts[c], r.contexts[c], s.born, r.born);
      } else if r.contexts[c] == s.contexts[c] {
        HonestGrows(s.contexts[c], r.contexts[c], s.born, r.born);
      } else {
        var k := s.contexts[c];
        if x.Operate? {
          ApplyHonest(k, s.vfs, x.op, s.born);
          HonestGrows(r.contexts[c], r.contexts[c], s.born, r.born);
        } else if x.InitHook? {
          CreationHonest(k, s.vfs, x.i, x.format, x.dir, x.name, 0, s.born);
        } else if x.TmpfileHook? {
          CreationHonest(k, s.vfs, x.i, x.format, 0, "", x.superblock, s.born);
        } else if x.Instantiate? {
          CreationHonest(k, s.vfs, x.i, OtherFormat, 0, "", 0, s.born);
        } else {
          HonestGrows(k, r.contexts[c], s.born, r.born);
        }
      }
    }
  }

  lemma NewHonest(x: Action, born: set<Inode>)
    requires x.Begin? && InodeOf(x.seen, x.provider.dentry).Some? && InodeOf(x.seen, x.provider.dentry).value in born
    ensures Honest(Alloc(x.provider, InodeOf(x.seen, x.provider.dentry).value, x.sd, x.capability, x.userNs), born)
  {}

  lemma {:induction false} AlwaysHonest(n: nat, v: Vfs, xs: seq<Action>)
    requires LockedRun(Init(n, v), xs)
    ensures AllHonest(Execute(Init(n, v), xs))
  {
    hide Step;
    hide Honest;
    hide LockKept;
    if xs != [] {
      var ys := xs[..|xs| - 1];
      LockedPrefix(Init(n, v), xs);
      AlwaysHonest(n, v, ys);
      AlwaysItsOwn(n, v, ys);
      LockMeansOwn(Execute(Init(n, v), ys), xs[|xs| - 1]);
      StepHonest(Execute(Init(n, v), ys), xs[|xs| - 1]);
    }
  }

  /** Copy-up never deletes what it did not create: outside orphan cleanup every
      unlink or rmdir it admits, whatever the environment renames or substitutes,
      names an inode made in one of this context's CREATE phases, and never the
      provider. */
  lemma DeletesOnlyWhatItMade(n: nat, v: Vfs, xs: seq<Action>, c: Ctx, dir: Inode, d: Dentry, directory: bool)
    requires LockedRun(Init(n, v), xs)
    requires
      var s := Execute(Init(n, v), xs);
      c < |s.contexts| && AllowsUnlink(s.contexts[c], s.vfs, dir, d, directory) && !s.contexts[c].armed.orphan
    ensures
      var s := Execute(Init(n, v), xs);
      var k := s.contexts[c];
      && InodeOf(s.vfs, d).Some?
      && InodeOf(s.vfs, d).value in k.past.made
      && k.past.made[InodeOf(s.vfs, d).value] in k.past.pinned
      && InodeOf(s.vfs, d).value != k.provider.inode
  {
    AlwaysHonest(n, v, xs);
    AlwaysLedgers(n, v, xs);
  }

  /** The condition is needed: whenever a stacked confirmation registers an inode
      that the context did not make, a cleanup of that inode is armed and admitted
      straight away. */
  lemma ForeignInodeBecomesDeletable(c: Context, v: Vfs, p: Path)
    requires ConfirmsStacked(c, v, p) && !ConfirmsOwn(c, v, DoConfirm(p))
    requires c.generation < U64 - 1 && IsDirectory(v, c.armed.parent.value.inode)
    ensures
      var i, parent := InodeOf(v, p.dentry).value, c.armed.parent.value;
      var after := BeginCleanup(Clear(ConfirmNamed(c, v, p).0), v, v, parent.path, p.dentry, IsDirectory(v, i)).0;
      && i !in after.past.made
      && !after.armed.orphan
      && AllowsUnlink(after, v, parent.inode, p.dentry, IsDirectory(v, i))
  {
    var d := Clear(ConfirmNamed(c, v, p).0);
    var i, parent := InodeOf(v, p.dentry).value, c.armed.parent.value;
    assert EntryTracks(d.created[|c.created|], v, parent.path, parent.inode, p.dentry, i);
  }

  /** So the lock cannot be dropped: from any reachable state in which a creation can be
      confirmed as stacked, one change of its name to an inode that the context did not
      make ends, three operations of the same task later, in the admitted deletion of
      that inode. */
  lemma BrokenLockDeletesForeign(n: nat, v: Vfs, xs: seq<Action>, t: nat, w: Vfs, p: Path)
    requires
      var s := Execute(Init(n, v), xs);
      && Owned(s, t)
      && var k := s.contexts[s.tasks[t].ctx.value];
         && ConfirmsStacked(k, w, p) && InodeOf(w, p.dentry).value !in k.past.made
         && k.generation < U64 - 1 && IsDirectory(w, k.armed.parent.value.inode)
    ensures
      var s := Execute(Init(n, v), xs);
      var id := s.tasks[t].ctx.value;
      var parent, i := s.contexts[id].armed.parent.value, InodeOf(w, p.dentry).value;
      var ys := [Environment(w), Operate(t, DoConfirm(p)), Operate(t, DoEnd),
                 Operate(t, DoCleanup(w, parent.path, p.dentry, IsDirectory(w, i)))];
      var r := Execute(Init(n, v), xs + ys);
      && id < |r.contexts| && r.vfs == w
      && AllowsUnlink(r.contexts[id], w, parent.inode, p.dentry, IsDirectory(w, i))
      && !r.contexts[id].armed.orphan && i !in r.contexts[id].past.made
  {
    hide Apply;
    var s := Execute(Init(n, v), xs);
    var id := s.tasks[t].ctx.value;
    var k := s.contexts[id];
    var parent, i := k.armed.parent.value, InodeOf(w, p.dentry).value;
    var clean := DoCleanup(w, parent.path, p.dentry, IsDirectory(w, i));
    var s1 := Step(s, Environment(w));
    var s2 := Step(s1, Operate(t, DoConfirm(p)));
    OperateOwned(s1, t, DoConfirm(p));
    var s3 := Step(s2, Operate(t, DoEnd));
    OperateOwned(s2, t, DoEnd);
    var s4 := Step(s3, Operate(t, clean));
    OperateOwned(s3, t, clean);
    assert s4.contexts[id] == Apply(Apply(Apply(k, w, DoConfirm(p)), w, DoEnd), w, clean);
    FourMore(Init(n, v), xs, Environment(w), Operate(t, DoConfirm(p)), Operate(t, DoEnd), Operate(t, clean));
    hide Step;
    ForeignCleanup(k, w, p);
  }

  lemma ForeignCleanup(k: Context, w: Vfs, p: Path)
    requires ConfirmsStacked(k, w, p) && InodeOf(w, p.dentry).value !in k.past.made
    requires k.generation < U64 - 1 && IsDirectory(w, k.armed.parent.value.inode)
    ensures
      var parent, i := k.armed.parent.value, InodeOf(w, p.dentry).value;
      var d := Apply(Apply(Apply(k, w, DoConfirm(p)), w, DoEnd), w,
                     DoCleanup(w, parent.path, p.dentry, IsDirectory(w, i)));
      && AllowsUnlink(d, w, parent.inode, p.dentry, IsDirectory(w, i))
      && !d.armed.orphan && i !in d.past.made
  {
    ForeignInodeBecomesDeletable(k, w, p);
  }

  lemma OperateOwned(s: State, t: nat, op: Op)
    requires Owned(s, t)
    ensures
      var r, id := Step(s, Operate(t, op)), s.tasks[t].ctx.value;
      && Owned(r, t) && r.tasks == s.tasks && r.vfs == s.vfs && |r.contexts| == |s.contexts|
      && r.contexts[id] == Apply(s.contexts[id], s.vfs, op)
  {
    hide Apply;
    ApplyKeepsHolders(s.contexts[s.tasks[t].ctx.value], s.vfs, op);
  }

  lemma FourMore(s: State, xs: seq<Action>, a: Action, b: Action, c: Action, d: Action)
    ensures Execute(s, xs + [a, b, c, d]) == Step(Step(Step(Step(Execute(s, xs), a), b), c), d)
  {
    hide Step;
    var all := xs + [a, b, c, d];
    assert all[..|all| - 1] == xs + [a, b, c];
    assert (xs + [a, b, c])[..|xs| + 2] == xs + [a, b];
    assert (xs + [a, b])[..|xs| + 1] == xs + [a];
    assert (xs + [a])[..|xs|] == xs;
    assert Execute(s, xs + [a]) == Step(Execute(s, xs), a);
    assert Execute(s, xs + [a, b]) == Step(Execute(s, xs + [a]), b);
    assert Execute(s, xs + [a, b, c]) == Step(Execute(s, xs + [a, b]), c);
  }

  // ----- staging -----

  /** Once bound, the staging inode never changes; only its name can. */
  predicate StagingStays(c: Context, d: Context) {
    c.staging.Some? ==> d.staging.Some? && d.staging.value.inode == c.staging.value.inode
                        && d.staging.value.parent == c.staging.value.parent
  }

  lemma ApplyStaging(c: Context, v: Vfs, op: Op)
    ensures StagingStays(c, Apply(c, v, op))
  {
    hide CreateArguments;
    hide StagingValid;
    hide Tracked;
  }

  lemma StepStaging(s: State, x: Action, c: Ctx)
    requires c < |s.contexts| && c < |Step(s, x).contexts|
    ensures StagingStays(s.contexts[c], Step(s, x).contexts[c])
  {
    hide Step;
    hide Apply;
    ContextMoves(s, x, c);
    if x.Operate? {
      ApplyStaging(s.contexts[c], s.vfs, x.op);
    }
  }

  /** Over any continuation of a run the staging inode stays what it was bound to,
      and it is an inode that one of the context's CREATE phases made. */
  lemma {:induction false} StagingIsWriteOnce(n: nat, v: Vfs, xs: seq<Action>, k: nat, c: Ctx)
    requires k <= |xs| && c < |Execute(Init(n, v), xs[..k]).contexts|
    ensures c < |Execute(Init(n, v), xs).contexts|
    ensures StagingStays(Execute(Init(n, v), xs[..k]).contexts[c], Execute(Init(n, v), xs).contexts[c])
    decreases |xs|
  {
    hide Step;
    var s0 := Init(n, v);
    if k == |xs| {
      assert xs[..k] == xs;
    } else {
      var ys := xs[..|xs| - 1];
      assert ys[..k] == xs[..k];
      StagingIsWriteOnce(n, v, ys, k, c);
      AlwaysStamped(n, v, ys);
      StepProgress(Execute(s0, ys), xs[|xs| - 1]);
      StepStaging(Execute(s0, ys), xs[|xs| - 1], c);
    }
  }

  lemma StagingWasMade(n: nat, v: Vfs, xs: seq<Action>, c: Ctx)
    requires LockedRun(Init(n, v), xs)
    requires
      var s := Execute(Init(n, v), xs);
      c < |s.contexts| && s.contexts[c].staging.Some?
    ensures
      var k := Execute(Init(n, v), xs).contexts[c];
      k.staging.value.inode in k.past.made && k.past.made[k.staging.value.inode] in k.past.pinned
  {
    AlwaysHonest(n, v, xs);
    AlwaysLedgers(n, v, xs);
  }

  /** Copy-up publishes only what it created: an admitted link or rename takes the
      staging inode, which a CREATE phase made, to a destination that is free and
      sits in the directory the phase was armed for. */
  lemma PublishesOnlyWhatItMade(n: nat, v: Vfs, xs: seq<Action>, c: Ctx, from: Dentry, fromDir: Inode, dir: Inode,
                                to: Dentry)
    requires LockedRun(Init(n, v), xs)
    requires
      var s := Execute(Init(n, v), xs);
      && c < |s.contexts|
      && (AllowsLink(s.contexts[c], s.vfs, from, dir, to) || AllowsRename(s.contexts[c], s.vfs, fromDir, from, dir, to))
    ensures
      var s := Execute(Init(n, v), xs);
      var k := s.contexts[c];
      && InodeOf(s.vfs, from).Some? && InodeOf(s.vfs, from).value in k.past.made
      && InodeOf(s.vfs, from).value != k.provider.inode
      && InodeOf(s.vfs, to).None? && InodeOf(s.vfs, ParentOf(s.vfs, to)) == Some(dir)
  {
    AlwaysHonest(n, v, xs);
  }

  /** Finishing a publication, over every run: the phase is over and no file of the
      context is admitted any more; if it is accepted, the entry showed the staging
      inode, which a CREATE phase made, inside the armed directory, and staging goes by
      that entry from now on; if not, staging is what it was. */
  lemma PublicationIsExact(n: nat, v: Vfs, xs: seq<Action>, t: nat, seen: Vfs, p: Path)
    requires LockedRun(Init(n, v), xs)
    requires Owned(Execute(Init(n, v), xs), t) && InodeOf(seen, p.dentry).Some?
    ensures
      var s := Execute(Init(n, v), xs);
      var r, id := Step(s, Operate(t, DoFinishPublish(seen, p))), s.tasks[t].ctx.value;
      && Owned(r, t) && r.tasks[t].ctx == Some(id)
      && var k, d, accepted := s.contexts[id], r.contexts[id], FinishPublish(s.contexts[id], seen, s.vfs, p).1.OK?;
         && d.armed.phase.NoPhase?
         && (forall u, f :: 0 <= u && 0 <= f < |r.files| && r.files[f].ctx == Some(id) ==> !Admitted(r, u, r.files[f]))
         && (if accepted then PublishedAt(k, d, seen, s.vfs, p) else d.staging == k.staging)
  {
    hide Execute;
    var s := Execute(Init(n, v), xs);
    AlwaysHonest(n, v, xs);
    OperateOwned(s, t, DoFinishPublish(seen, p));
    var r, id := Step(s, Operate(t, DoFinishPublish(seen, p))), s.tasks[t].ctx.value;
    FinishesExactly(s.contexts[id], seen, s.vfs, p, s.born);
    forall u, f | 0 <= u && 0 <= f < |r.files| && r.files[f].ctx == Some(id) ensures !Admitted(r, u, r.files[f]) {
      if Admitted(r, u, r.files[f]) {
        AdmittedIsArmed(r, u, r.files[f]);
      }
    }
  }

  predicate PublishedAt(k: Context, d: Context, seen: Vfs, v: Vfs, p: Path) {
    && (k.armed.phase.PublishLink? || k.armed.phase.PublishRename?)
    && k.staging.Some? && d.staging.Some? && k.armed.parent.Some?
    && d.staging.value.inode == k.staging.value.inode && d.staging.value.inode in d.past.made
    && d.staging.value.path.dentry == p.dentry
    && InodeOf(seen, p.dentry) == Some(d.staging.value.inode)
    && p.mnt == k.armed.parent.value.path.mnt
    && ParentOf(seen, p.dentry) == k.armed.parent.value.path.dentry
    && InodeOf(v, ParentOf(seen, p.dentry)) == Some(k.armed.parent.value.inode)
  }

  lemma FinishesExactly(k: Context, seen: Vfs, v: Vfs, p: Path, born: set<Inode>)
    requires Honest(k, born) && InodeOf(seen, p.dentry).Some?
    ensures
      var d := Apply(k, v, DoFinishPublish(seen, p));
      && d.armed.phase.NoPhase?
      && (if FinishPublish(k, seen, v, p).1.OK? then PublishedAt(k, d, seen, v, p) else d.staging == k.staging)
  {}

  // ----- writes to the provider -----

  /** The armed parents are not the provider itself. */
  predicate ParentsDistinct(c: Context) {
    && (c.armed.parent.Some? ==> c.armed.parent.value.inode != c.provider.inode)
    && (c.staging.Some? ==> c.staging.value.parent.inode != c.provider.inode)
  }

  predicate Writes(mask: set<Access>) {
    MayWrite in mask || MayAppend in mask
  }

  predicate Shows(v: Vfs, d: Dentry, i: Inode) {
    InodeOf(v, d) == Some(i)
  }

  /** With the provider distinct from the armed parents, no hook of a phase other
      than the orphan ones admits a write to the provider: not through its inode,
      its dentry or any file opened on it, and a capability only after another call of
      the same clone was admitted. */
  lemma ProviderIsNeverWritten(n: nat, v: Vfs, xs: seq<Action>, c: Ctx, t: nat)
    requires LockedRun(Init(n, v), xs)
    requires
      var s := Execute(Init(n, v), xs);
      c < |s.contexts| && ParentsDistinct(s.contexts[c]) && !s.contexts[c].armed.phase.OrphanMarker?
      && !s.contexts[c].armed.orphan
    ensures
      var s := Execute(Init(n, v), xs);
      var k := s.contexts[c];
      ProviderSafe(k, s.vfs, c, CurrentOf(s, t))
  {
    AlwaysHonest(n, v, xs);
    var s := Execute(Init(n, v), xs);
    HonestIsSafe(s.contexts[c], s.vfs, c, CurrentOf(s, t), s.born);
  }

  ghost predicate ProviderSafe(k: Context, v: Vfs, id: Ctx, current: Option<Ctx>) {
    var p := k.provider.inode;
    && (forall mask :: Writes(mask) ==> !AllowsPermission(k, v, p, mask))
    && (forall d :: Shows(v, d, p) ==> !AllowsSetattr(k, v, d))
    && (forall d, name :: Shows(v, d, p) ==> !AllowsSetxattr(k, v, d, name))
    && (forall dir, d, directory :: Shows(v, d, p) ==> !AllowsUnlink(k, v, dir, d, directory))
    && (forall f: File :: f.inode == p && f.writing ==> !FileAllowed(k, v, f))
    && (forall f: File, mask :: f.inode == p && Writes(mask) ==> !FilePermission(k, id, current, v, f, mask).Allow?)
    && (forall f: File :: f.inode == p ==> !FileMetadata(k, id, current, v, f, true).Allow?)
    && (forall d, userNs :: Shows(v, d, p) && AllowsCapabilitySetxattr(k, v, d, userNs) ==> k.armed.cloneHookSeen)
  }

  lemma HonestIsSafe(k: Context, v: Vfs, id: Ctx, current: Option<Ctx>, born: set<Inode>)
    requires Honest(k, born) && ParentsDistinct(k) && !k.armed.phase.OrphanMarker? && !k.armed.orphan
    ensures ProviderSafe(k, v, id, current)
  {
    forall mask | Writes(mask) ensures !AllowsPermission(k, v, k.provider.inode, mask) {
      ReadMaskNeverWrites(v, k.provider.inode, mask);
    }
    forall f: File, mask | f.inode == k.provider.inode && Writes(mask)
      ensures !FilePermission(k, id, current, v, f, mask).Allow?
    {
      ReadMaskNeverWrites(v, f.inode, mask);
    }
  }

  lemma ReadMaskNeverWrites(v: Vfs, i: Inode, mask: set<Access>)
    requires Writes(mask)
    ensures !ReadMask(v, i, mask)
  {}

  /** A bound file that was opened in, or resumed into, a source-read phase. */
  predicate SourceFile(s: State, f: nat) {
    f < |s.files| && (s.files[f].ctx.None? || s.files[f].stamped.SourceRead?)
  }

  lemma StaysSourceFile(s: State, x: Action, f: nat)
    requires SourceFile(s, f) && GenerationsFit(s)
    ensures SourceFile(Step(s, x), f)
  {
    hide Step;
    StepMovesFiles(s, x, f);
    if x.Resume? && x.f == f && Step(s, x).files[f] != s.files[f] {
      ResumeIsNarrow(s, x.t, f);
    }
  }

  /** Only the provider directory, opened by its own context for reading, is resumed, and
      only into a source-read phase; and it only reads: over every continuation, whatever
      it does, a file that was once resumed admits no write and no metadata change. */
  lemma {:induction false} ResumedFileOnlyReads(n: nat, v: Vfs, xs: seq<Action>, ys: seq<Action>, t: nat, f: nat,
                                                u: nat, mask: set<Access>)
    requires
      var s := Execute(Init(n, v), xs);
      f < |s.files| && Step(s, Resume(t, f)).files[f] != s.files[f]
    requires Writes(mask)
    ensures
      var s := Execute(Init(n, v), xs);
      && Owned(s, t) && s.files[f].ctx == s.tasks[t].ctx
      && var c := s.contexts[s.tasks[t].ctx.value];
         && c.armed.phase.SourceRead? && s.files[f].reading && !s.files[f].writing
         && s.files[f].path == c.provider.path && s.files[f].inode == c.provider.inode
         && IsDirectory(s.vfs, s.files[f].inode)
    ensures
      var s := Execute(Init(n, v), xs + [Resume(t, f)] + ys);
      && SourceFile(s, f)
      && (s.files[f].ctx.Some? && s.files[f].ctx.value < |s.contexts| ==>
            var k := s.contexts[s.files[f].ctx.value];
            && !FilePermission(k, s.files[f].ctx.value, CurrentOf(s, u), s.vfs, s.files[f], mask).Allow?
            && !FileMetadata(k, s.files[f].ctx.value, CurrentOf(s, u), s.vfs, s.files[f], true).Allow?)
  {
    var zs := xs + [Resume(t, f)] + ys;
    ResumeIsNarrow(Execute(Init(n, v), xs), t, f);
    hide Step;
    ResumedStays(n, v, xs, ys, t, f);
    AlwaysStamped(n, v, zs);
    hide Execute;
    var s := Execute(Init(n, v), zs);
    if s.files[f].ctx.Some? && s.files[f].ctx.value < |s.contexts| {
      assert FileFits(s, s.files[f]);
      ReadMaskNeverWrites(s.vfs, s.files[f].inode, mask);
    }
  }

  lemma {:induction false} ResumedStays(n: nat, v: Vfs, xs: seq<Action>, ys: seq<Action>, t: nat, f: nat)
    requires
      var s := Execute(Init(n, v), xs);
      f < |s.files| && Step(s, Resume(t, f)).files[f] != s.files[f]
    ensures SourceFile(Execute(Init(n, v), xs + [Resume(t, f)] + ys), f)
    decreases |ys|
  {
    var zs := xs + [Resume(t, f)] + ys;
    hide Step;
    if ys == [] {
      assert zs[..|zs| - 1] == xs;
      ResumeIsNarrow(Execute(Init(n, v), xs), t, f);
      AlwaysStamped(n, v, xs);
      StepMovesFiles(Execute(Init(n, v), xs), Resume(t, f), f);
    } else {
      assert zs[..|zs| - 1] == xs + [Resume(t, f)] + ys[..|ys| - 1];
      ResumedStays(n, v, xs, ys[..|ys| - 1], t, f);
      AlwaysStamped(n, v, zs[..|zs| - 1]);
      StaysSourceFile(Execute(Init(n, v), zs[..|zs| - 1]), zs[|zs| - 1], f);
    }
  }

  /** The capability hook is the exception: it checks the dentry only the first time,
      so the provider's dentry is admitted exactly when an earlier call of the same
      clone was. */
  lemma CapabilityHookIsLooseAfterFirstUse(n: nat, v: Vfs, xs: seq<Action>, c: Ctx, d: Dentry, userNs: nat)
    requires LockedRun(Init(n, v), xs)
    requires
      var s := Execute(Init(n, v), xs);
      c < |s.contexts| && Shows(s.vfs, d, s.contexts[c].provider.inode)
    ensures
      var s := Execute(Init(n, v), xs);
      var k := s.contexts[c];
      AllowsCapabilitySetxattr(k, s.vfs, d, userNs) <==>
      && k.armed.cloneHookSeen && k.armed.cloneActive && k.armed.phase.Populate? && userNs == k.userNs
      && StagingValid(k, s.vfs)
  {
    AlwaysHonest(n, v, xs);
    hide Execute;
    assert Honest(Execute(Init(n, v), xs).contexts[c], Execute(Init(n, v), xs).born);
  }
}
