/** The bookkeeping of CREATE phases: each admits one named creation and supplies the
    pinned descriptor to one inode. */
module CopyUpLedger {
  import opened Widths
  import opened CopyUp
  import opened CopyUpMachine

  // ----- the ledger of CREATE phases -----

  predicate Increasing(xs: seq<nat>, bound: nat) {
    && (forall i, j :: 0 <= i < j < |xs| ==> xs[i] < xs[j])
    && (forall i :: 0 <= i < |xs| ==> xs[i] <= bound)
  }

  function Generations(stamps: seq<Stamp>): seq<nat> {
    seq(|stamps|, i requires 0 <= i < |stamps| => stamps[i].generation)
  }

  /** No generation admitted two named creations or stamped two inodes, and every
      stamp used the descriptor that its phase had pinned. */
  predicate Ledger(c: Context) {
    && Increasing(c.past.named, c.generation)
    && Increasing(Generations(c.past.stamps), c.generation)
    && (c.armed.phase.Create? ==> (c.armed.createSeen <==> c.generation in c.past.named))
    && (c.armed.phase.Create? ==> (c.armed.initSeen <==> c.generation in Generations(c.past.stamps)))
    && (c.armed.phase.Create? ==> c.generation in c.past.pinned && c.past.pinned[c.generation] == c.armed.sd)
    && (forall g :: g in c.past.pinned ==> g <= c.generation)
    && (forall k :: 0 <= k < |c.past.stamps| ==>
          && c.past.stamps[k].generation in c.past.pinned
          && c.past.pinned[c.past.stamps[k].generation] == c.past.stamps[k].bytes)
    && (forall i :: i in c.past.made ==> c.past.made[i] in c.past.pinned)
  }

  lemma GenerationsAppend(stamps: seq<Stamp>, x: Stamp)
    ensures Generations(stamps + [x]) == Generations(stamps) + [x.generation]
  {}

  lemma AppendIncreasing(xs: seq<nat>, g: nat)
    requires Increasing(xs, g) && g !in xs
    ensures Increasing(xs + [g], g)
  {
    forall i | 0 <= i < |xs| ensures xs[i] < g {
      assert xs[i] in xs;
    }
  }

  /** Nothing changed, or a phase other than a creation was armed. */
  predicate Rearmed(c: Context, d: Context) {
    d == c || (d.past == c.past && d.generation >= c.generation && !d.armed.phase.Create?)
  }

  lemma RearmedLedger(c: Context, d: Context)
    requires Ledger(c) && Rearmed(c, d)
    ensures Ledger(d)
  {}

  lemma ArmLedger(c: Context, armed: Armed)
    requires Ledger(c) && !armed.phase.Create?
    ensures Ledger(Arm(c, armed).0)
  {
    hide Ledger;
    RearmedLedger(c, Arm(c, armed).0);
  }

  lemma BeginCreateLedger(c: Context, seen: Vfs, provider: Path, effective: Option<Bytes>, parent: Path,
                          dest: Option<Dentry>, format: Format, anonymous: bool)
    requires Ledger(c)
    ensures Ledger(BeginCreate(c, seen, provider, effective, parent, dest, format, anonymous).0)
  {
    hide CreateArguments;
    var d := BeginCreate(c, seen, provider, effective, parent, dest, format, anonymous).0;
    if d != c {
      assert d.generation == c.generation + 1 && d.past == c.past.(pinned := c.past.pinned[d.generation := d.armed.sd]);
      forall i | 0 <= i < |c.past.stamps| ensures Generations(c.past.stamps)[i] < d.generation {}
    }
  }

  /** Operations other than arming and the named-create hook leave the ledger. */
  predicate LedgerKept(c: Context, d: Context) {
    && d.past == c.past && d.generation == c.generation
    && (d.armed.phase.NoPhase? ||
        (d.armed.phase == c.armed.phase && d.armed.createSeen == c.armed.createSeen
         && d.armed.initSeen == c.armed.initSeen && d.armed.sd == c.armed.sd))
  }

  lemma KeptLedger(c: Context, d: Context)
    requires Ledger(c) && LedgerKept(c, d)
    ensures Ledger(d)
  {}

  lemma CreateHookLedger(c: Context, v: Vfs, dir: Inode, d: Dentry, format: Format)
    requires Ledger(c)
    ensures Ledger(CreateHook(c, v, dir, d, format))
  {
    if AllowsCreate(c, v, dir, d, format) {
      AppendIncreasing(c.past.named, c.generation);
    }
  }

  lemma QuietOpsKeepLedger(c: Context, v: Vfs, op: Op)
    requires op.DoDentryCreate? || op.DoConfirm? || op.DoBind? || op.DoRebind? || op.DoFinishPublish? || op.DoEnd? ||
             op.DoClone? || op.DoCapabilityHook? || op.DoCloneEnd?
    ensures LedgerKept(c, Apply(c, v, op))
  {}

  lemma ApplyLedger(c: Context, v: Vfs, op: Op)
    requires Ledger(c)
    ensures Ledger(Apply(c, v, op))
  {
    hide Ledger;
    hide Arm;
    hide BeginCreate;
    hide StagingValid;
    hide Tracked;
    match op {
      case DoSourceRead => ArmLedger(c, DISARMED.(phase := SourceRead));
      case DoOrphanMarker => ArmLedger(c, DISARMED.(phase := OrphanMarker));
      case DoPopulate => ArmLedger(c, DISARMED.(phase := Populate));
      case DoCreate(seen, provider, effective, parent, dest, format, anonymous) =>
        BeginCreateLedger(c, seen, provider, effective, parent, dest, format, anonymous);
      case DoCreateHook(dir, d, format) => CreateHookLedger(c, v, dir, d, format);
      case DoPublish(seen, parent, target, rename) => PublishLedger(c, seen, v, parent, target, rename);
      case DoCleanup(seen, parent, victim, directory) => CleanupLedger(c, seen, v, parent, victim, directory);
      case DoOrphanCleanup(seen, parent, victim, directory) => CleanupLedger(c, seen, v, parent, victim, directory);
      case _ =>
        QuietOpsKeepLedger(c, v, op);
        KeptLedger(c, Apply(c, v, op));
    }
  }

  lemma PublishLedger(c: Context, seen: Vfs, v: Vfs, parent: Path, target: Dentry, rename: bool)
    requires Ledger(c)
    ensures Ledger(BeginPublish(c, seen, v, parent, target, rename).0)
  {
    hide Ledger;
    hide StagingValid;
    RearmedLedger(c, BeginPublish(c, seen, v, parent, target, rename).0);
  }

  lemma CleanupLedger(c: Context, seen: Vfs, v: Vfs, parent: Path, victim: Dentry, directory: bool)
    requires Ledger(c)
    ensures Ledger(BeginCleanup(c, seen, v, parent, victim, directory).0)
    ensures Ledger(BeginOrphanCleanup(c, seen, v, parent, victim, directory).0)
  {
    hide Ledger;
    hide Tracked;
    hide VictimInPlace;
    RearmedLedger(c, BeginCleanup(c, seen, v, parent, victim, directory).0);
    RearmedLedger(c, BeginOrphanCleanup(c, seen, v, parent, victim, directory).0);
  }

  lemma MadeLedger(c: Context, i: Inode)
    requires Ledger(c) && c.armed.phase.Create?
    ensures Ledger(Made(c, i))
  {}

  /** One more stamp, the first of its generation. */
  lemma StampLedger(c: Context, d: Context, i: Inode)
    requires Ledger(c) && c.armed.phase.Create? && !c.armed.initSeen
    requires d.generation == c.generation
    requires d.armed == c.armed.(initSeen := true, stackedSd := d.armed.stackedSd)
    requires d.past == c.past.(stamps := c.past.stamps + [Stamp(c.generation, i, c.armed.sd)], made := d.past.made)
    requires d.past.made == c.past.made || d.past.made == c.past.made[i := c.generation]
    ensures Ledger(d)
  {
    GenerationsAppend(c.past.stamps, Stamp(c.generation, i, c.armed.sd));
    AppendIncreasing(Generations(c.past.stamps), c.generation);
    hide Increasing;
    hide Generations;
  }

  lemma InitLedger(c: Context, v: Vfs, i: Inode, format: Format, dir: Inode, name: string)
    requires Ledger(c)
    ensures Ledger(InitSecurity(c, v, i, format, dir, name).0)
  {
    hide Ledger;
    hide InitNamed;
    var d := InitSecurity(c, v, i, format, dir, name).0;
    if d != c {
      StampLedger(c, d, i);
    }
  }

  lemma TmpfileLedger(c: Context, v: Vfs, i: Inode, format: Format, superblock: nat)
    requires Ledger(c)
    ensures Ledger(PostCreateTmpfile(c, v, i, format, superblock))
  {}

  ghost predicate Ledgers(s: State) {
    forall c :: 0 <= c < |s.contexts| ==> Ledger(s.contexts[c])
  }

  lemma StepLedgers(s: State, x: Action)
    requires Ledgers(s)
    ensures Ledgers(Step(s, x))
  {
    hide Ledger;
    hide Apply;
    hide InitSecurity;
    hide PostCreateTmpfile;
    hide FileAllowed;
    hide Resumable;
    hide StagingPath;
    var r := Step(s, x);
    forall c | 0 <= c < |r.contexts| ensures Ledger(r.contexts[c]) {
      ContextMoves(s, x, c);
      if c >= |s.contexts| {
        NewLedger(r.contexts[c]);
      } else if r.contexts[c] != s.contexts[c] {
        var k := s.contexts[c];
        assert Ledger(k);
        if x.Operate? {
          ApplyLedger(k, s.vfs, x.op);
        } else if x.InitHook? {
          InitLedger(k, s.vfs, x.i, x.format, x.dir, x.name);
        } else if x.TmpfileHook? {
          TmpfileLedger(k, s.vfs, x.i, x.format, x.superblock);
        } else if x.Instantiate? {
          MadeLedger(k, x.i);
        } else {
          KeptLedger(k, r.contexts[c]);
        }
      }
    }
  }

  /** How one step may change one context. */
  ghost predicate ContextMoved(s: State, x: Action, r: State, c: Ctx)
    requires c < |r.contexts|
  {
    if c >= |s.contexts| then
      && x.Begin? && InodeOf(x.seen, x.provider.dentry).Some? && InodeOf(x.seen, x.provider.dentry).value in s.born
      && x.sd != []
      && r.contexts[c] == Alloc(x.provider, InodeOf(x.seen, x.provider.dentry).value, x.sd, x.capability, x.userNs)
    else
      var k, d := s.contexts[c], r.contexts[c];
      || d == k
      || (x.Operate? && Owned(s, x.t) && s.tasks[x.t].ctx == Some(c) && d == Apply(k, s.vfs, x.op))
      || (x.InitHook? && Owned(s, x.t) && s.tasks[x.t].ctx == Some(c) && x.i !in s.born
          && d == InitSecurity(k, s.vfs, x.i, x.format, x.dir, x.name).0)
      || (x.TmpfileHook? && x.i !in s.born && d == PostCreateTmpfile(k, s.vfs, x.i, x.format, x.superblock))
      || (x.Instantiate? && x.i !in s.born && k.armed.phase.Create? && d == Made(k, x.i))
      || (!x.Operate? && !x.InitHook? && !x.TmpfileHook? && !x.Instantiate?
          && (d == k.(hold := d.hold) || d == Clear(k)))
  }

  lemma HoldersMove(s: State, x: Action, c: Ctx)
    requires c < |Step(s, x).contexts|
    requires !x.Operate? && !x.InitHook? && !x.TmpfileHook? && !x.Instantiate?
    ensures ContextMoved(s, x, Step(s, x), c)
  {
    hide Apply;
    hide Creation;
    hide FileAllowed;
    hide Resumable;
    hide StagingPath;
  }

  /** The ways one step can change one context. */
  lemma ContextMoves(s: State, x: Action, c: Ctx)
    requires c < |Step(s, x).contexts|
    ensures ContextMoved(s, x, Step(s, x), c)
  {
    hide Apply;
    hide InitSecurity;
    hide PostCreateTmpfile;
    hide Files;
    hide Owners;
    hide EnterLeave;
    if !x.Operate? && !x.InitHook? && !x.TmpfileHook? && !x.Instantiate? {
      HoldersMove(s, x, c);
    }
  }

  lemma NewLedger(c: Context)
    requires c.past == Past(map[], map[], [], []) && c.armed == DISARMED
    ensures Ledger(c)
  {}

  lemma {:induction false} AlwaysLedgers(n: nat, v: Vfs, xs: seq<Action>)
    ensures Ledgers(Execute(Init(n, v), xs))
  {
    hide Step;
    if xs != [] {
      AlwaysLedgers(n, v, xs[..|xs| - 1]);
      StepLedgers(Execute(Init(n, v), xs[..|xs| - 1]), xs[|xs| - 1]);
    }
  }

  /** A creation that the hook admits is the first of its phase, and a descriptor
      that it supplies is the pinned one, supplied for the first time. */
  lemma CreatesAndStampsOnce(n: nat, v: Vfs, xs: seq<Action>, c: Ctx)
    requires c < |Execute(Init(n, v), xs).contexts|
    ensures
      var s := Execute(Init(n, v), xs);
      var k := s.contexts[c];
      && (forall dir, d, format :: AllowsCreate(k, s.vfs, dir, d, format) ==> k.generation !in k.past.named)
      && (forall i, format, dir, name :: InitSecurity(k, s.vfs, i, format, dir, name).1.Matched? ==>
            && k.generation !in Generations(k.past.stamps)
            && k.generation in k.past.pinned
            && InitSecurity(k, s.vfs, i, format, dir, name).1.bytes == k.past.pinned[k.generation])
  {
    AlwaysLedgers(n, v, xs);
    hide InitNamed;
  }
}
