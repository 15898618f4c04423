/** The lock of the parent directory.  A stacked creation is confirmed by looking at
    what its name shows, so whoever can change that name in between decides what gets
    registered.  The caller holds the parent's lock from the lookup to the
    confirmation; this module says what that lock rules out and what follows. */
module CopyUpLock {
  import opened Widths
  import opened CopyUp
  import opened CopyUpMachine
  import opened CopyUpLedger

  /** A stacked creation is marked and not yet confirmed. */
  predicate Awaiting(c: Context) {
    && c.armed.phase.Create? && !c.armed.anonymous && c.armed.stackedSeen && c.armed.dentry.Some? && c.pending.None?
  }

  /** What the parent's lock rules out: while a creation awaits its confirmation, its
      name changes only by the creation itself. */
  ghost predicate LockKept(s: State, x: Action) {
    forall c :: 0 <= c < |s.contexts| && Awaiting(s.contexts[c]) ==>
      var d := s.contexts[c].armed.dentry.value;
      && (x.Environment? ==> InodeOf(x.v, d) == InodeOf(s.vfs, d))
      && (x.Instantiate? && x.d == d ==> CurrentOf(s, x.t) == Some(c))
  }

  ghost predicate LockedRun(s: State, xs: seq<Action>) {
    forall k :: 0 <= k < |xs| ==> LockKept(Execute(s, xs[..k]), xs[k])
  }

  lemma LockedPrefix(s: State, xs: seq<Action>)
    requires LockedRun(s, xs) && xs != []
    ensures LockedRun(s, xs[..|xs| - 1])
    ensures LockKept(Execute(s, xs[..|xs| - 1]), xs[|xs| - 1])
  {
    hide LockKept;
    var ys := xs[..|xs| - 1];
    forall k | 0 <= k < |ys| ensures LockKept(Execute(s, ys[..k]), ys[k]) {
      assert ys[..k] == xs[..k];
      assert LockKept(Execute(s, xs[..k]), xs[k]);
    }
    assert LockKept(Execute(s, xs[..|ys|]), xs[|ys|]);
  }

  /** An inode of the phase that is armed now. */
  predicate MadeNow(c: Context, i: Inode) {
    i in c.past.made && c.past.made[i] == c.generation
  }

  /** No creation of this phase went by the ordinary, unstacked hook. */
  predicate Stackable(c: Context) {
    c.armed.phase.Create? && !c.armed.anonymous && c.pending.None? && (c.armed.initSeen ==> c.armed.stackedSd)
  }

  /** Until a stacked creation is marked, its phase has made nothing; from then on its
      name shows exactly what the phase made. */
  ghost predicate ShowsItsOwn(c: Context, v: Vfs) {
    Stackable(c) ==>
      && (!c.armed.stackedSeen ==> forall i :: i in c.past.made ==> !MadeNow(c, i))
      && (c.armed.stackedSeen ==>
            && c.armed.dentry.Some?
            && forall i: Inode :: MadeNow(c, i) <==> InodeOf(v, c.armed.dentry.value) == Some(i))
  }

  /** Nothing that matters to the name changes, or no stacked creation is under way. */
  predicate NameKept(c: Context, d: Context) {
    || !Stackable(d)
    || (Stackable(c) && d.past.made == c.past.made && d.generation == c.generation && d.armed.dentry == c.armed.dentry
        && d.armed.stackedSeen == c.armed.stackedSeen)
  }

  lemma KeptShows(c: Context, d: Context, v: Vfs)
    requires ShowsItsOwn(c, v) && NameKept(c, d)
    ensures ShowsItsOwn(d, v)
  {}

  /** Operations that do not touch the armed phase, or end it. */
  predicate StaysInPhase(op: Op) {
    || op.DoCreateHook? || op.DoConfirm? || op.DoBind? || op.DoRebind? || op.DoFinishPublish? || op.DoEnd?
    || op.DoClone? || op.DoCapabilityHook? || op.DoCloneEnd?
  }

  lemma PhaseOpsKeepName(c: Context, v: Vfs, op: Op)
    requires StaysInPhase(op)
    ensures NameKept(c, Apply(c, v, op))
  {
    hide StagingValid;
    hide AllowsCreate;
    hide AllowsCapabilitySetxattr;
    hide ConfirmArguments;
    hide PublishedMatches;
  }

  lemma ArmingOpsKeepName(c: Context, v: Vfs, op: Op)
    requires !op.DoCreate? && !op.DoDentryCreate? && !StaysInPhase(op)
    ensures NameKept(c, Apply(c, v, op))
  {
    hide StagingValid;
    hide Tracked;
    hide VictimInPlace;
  }

  lemma BeginCreateShows(c: Context, v: Vfs, seen: Vfs, provider: Path, effective: Option<Bytes>, parent: Path,
                         dest: Option<Dentry>, format: Format, anonymous: bool)
    requires Ledger(c) && ShowsItsOwn(c, v)
    ensures ShowsItsOwn(BeginCreate(c, seen, provider, effective, parent, dest, format, anonymous).0, v)
  {
    hide CreateArguments;
  }

  lemma ApplyShows(c: Context, v: Vfs, op: Op)
    requires Ledger(c) && ShowsItsOwn(c, v)
    ensures ShowsItsOwn(Apply(c, v, op), v)
  {
    if op.DoCreate? {
      hide Ledger;
      hide ShowsItsOwn;
      hide BeginCreate;
      BeginCreateShows(c, v, op.seen, op.provider, op.effective, op.parent, op.dest, op.format, op.anonymous);
    } else if !op.DoDentryCreate? {
      hide Ledger;
      hide ShowsItsOwn;
      hide Apply;
      if StaysInPhase(op) {
        PhaseOpsKeepName(c, v, op);
      } else {
        ArmingOpsKeepName(c, v, op);
      }
      KeptShows(c, Apply(c, v, op), v);
    }
  }

  lemma HooksKeepName(c: Context, v: Vfs, i: Inode, format: Format, dir: Inode, name: string, superblock: nat)
    ensures NameKept(c, InitSecurity(c, v, i, format, dir, name).0)
    ensures NameKept(c, PostCreateTmpfile(c, v, i, format, superblock))
  {
    hide InitNamed;
  }

  /** The creation itself: the name showed nothing, and now shows what was made. */
  lemma MadeShows(c: Context, v: Vfs, d: Dentry, i: Inode)
    requires ShowsItsOwn(c, v) && c.armed.phase.Create? && c.armed.stackedSeen && c.armed.dentry == Some(d)
    requires InodeOf(v, d).None?
    ensures ShowsItsOwn(Made(c, i), v.(inodes := v.inodes[d := i]))
  {
    var r, w := Made(c, i), v.(inodes := v.inodes[d := i]);
    if Stackable(c) {
      forall j: Inode ensures MadeNow(r, j) <==> InodeOf(w, d) == Some(j) {
        assert MadeNow(c, j) <==> InodeOf(v, d) == Some(j);
      }
    }
  }

  lemma LookElsewhere(c: Context, v: Vfs, w: Vfs)
    requires ShowsItsOwn(c, v)
    requires Awaiting(c) ==> InodeOf(w, c.armed.dentry.value) == InodeOf(v, c.armed.dentry.value)
    ensures ShowsItsOwn(c, w)
  {}

  ghost predicate NamesAreOwn(s: State) {
    forall c :: 0 <= c < |s.contexts| ==> ShowsItsOwn(s.contexts[c], s.vfs)
  }

  /** Only the environment and an instantiation change what a name shows. */
  lemma VfsMoves(s: State, x: Action)
    ensures x.Environment? ==> Step(s, x).vfs == x.v
    ensures !x.Environment? && !x.Instantiate? ==> Step(s, x).vfs == s.vfs
    ensures x.Instantiate? && Step(s, x) != s ==>
              && CurrentOf(s, x.t).Some? && CurrentOf(s, x.t).value < |s.contexts| == |Step(s, x).contexts|
              && Step(s, x).vfs == s.vfs.(inodes := s.vfs.inodes[x.d := x.i])
              && InodeOf(s.vfs, x.d).None?
              && var c := s.contexts[CurrentOf(s, x.t).value];
                 && c.armed.phase.Create? && c.armed.stackedSeen && c.armed.dentry == Some(x.d)
                 && Step(s, x).contexts == s.contexts[CurrentOf(s, x.t).value := Made(c, x.i)]
  {
    hide Apply;
    hide InitSecurity;
    hide PostCreateTmpfile;
    hide FileAllowed;
    hide Resumable;
    hide StagingPath;
  }

  lemma InstantiateShows(s: State, x: Action)
    requires NamesAreOwn(s) && LockKept(s, x) && x.Instantiate?
    ensures NamesAreOwn(Step(s, x))
  {
    hide Step;
    VfsMoves(s, x);
    var r := Step(s, x);
    if r != s {
      var id := CurrentOf(s, x.t).value;
      forall c | 0 <= c < |r.contexts| ensures ShowsItsOwn(r.contexts[c], r.vfs) {
        assert ShowsItsOwn(s.contexts[c], s.vfs);
        if c == id {
          MadeShows(s.contexts[c], s.vfs, x.d, x.i);
        } else {
          hide ShowsItsOwn;
          LookElsewhere(s.contexts[c], s.vfs, r.vfs);
        }
      }
    }
  }

  lemma StepShows(s: State, x: Action)
    requires NamesAreOwn(s) && Ledgers(s) && LockKept(s, x)
    ensures NamesAreOwn(Step(s, x))
  {
    hide Step;
    hide Ledger;
    hide ShowsItsOwn;
    hide Apply;
    hide InitSecurity;
    hide PostCreateTmpfile;
    var r := Step(s, x);
    VfsMoves(s, x);
    if x.Instantiate? {
      InstantiateShows(s, x);
    } else {
      forall c | 0 <= c < |r.contexts| ensures ShowsItsOwn(r.contexts[c], r.vfs) {
        ContextMoves(s, x, c);
        if c >= |s.contexts| {
          NewShows(r.contexts[c], r.vfs);
        } else {
          var k := s.contexts[c];
          assert ShowsItsOwn(k, s.vfs) && Ledger(k);
          if x.Environment? {
            EnvironmentKeeps(s, x.v, c);
            LookElsewhere(k, s.vfs, x.v);
          } else if r.contexts[c] == k {
          } else if x.Operate? {
            ApplyShows(k, s.vfs, x.op);
          } else {
            if x.InitHook? {
              HooksKeepName(k, s.vfs, x.i, x.format, x.dir, x.name, 0);
            } else if x.TmpfileHook? {
              HooksKeepName(k, s.vfs, x.i, x.format, 0, "", x.superblock);
            }
            KeptShows(k, r.contexts[c], r.vfs);
          }
        }
      }
    }
  }

  lemma EnvironmentKeeps(s: State, v: Vfs, c: Ctx)
    requires c < |s.contexts|
    ensures Step(s, Environment(v)).contexts[c] == s.contexts[c]
  {}

  lemma NewShows(c: Context, v: Vfs)
    requires c.armed == DISARMED
    ensures ShowsItsOwn(c, v)
  {}

  /** Over every run that keeps the lock, the name of a stacked creation that awaits its
      confirmation shows what its own phase made, or nothing. */
  lemma {:induction false} AlwaysItsOwn(n: nat, v: Vfs, xs: seq<Action>)
    requires LockedRun(Init(n, v), xs)
    ensures NamesAreOwn(Execute(Init(n, v), xs))
  {
    hide Step;
    if xs != [] {
      LockedPrefix(Init(n, v), xs);
      AlwaysItsOwn(n, v, xs[..|xs| - 1]);
      AlwaysLedgers(n, v, xs[..|xs| - 1]);
      StepShows(Execute(Init(n, v), xs[..|xs| - 1]), xs[|xs| - 1]);
    }
  }

  /** After a run that kept the lock, a stacked confirmation that finds the filesystem
      as `w` registers an inode of its own phase if and only if the name still shows
      what it showed. */
  lemma ConfirmsItsOwnIff(n: nat, v: Vfs, xs: seq<Action>, c: Ctx, w: Vfs, p: Path)
    requires LockedRun(Init(n, v), xs)
    requires var s := Execute(Init(n, v), xs); c < |s.contexts| && ConfirmsStacked(s.contexts[c], w, p)
    ensures
      var s := Execute(Init(n, v), xs);
      var k := s.contexts[c];
      MadeNow(k, InodeOf(w, p.dentry).value) <==> InodeOf(w, p.dentry) == InodeOf(s.vfs, p.dentry)
  {
    AlwaysItsOwn(n, v, xs);
    hide Execute;
    var s := Execute(Init(n, v), xs);
    assert ShowsItsOwn(s.contexts[c], s.vfs);
    assert Stackable(s.contexts[c]);
  }
}
