/** Whose word a copy-up context acts on, over every run: each armed phase holds exactly
    what the operation that armed it was asked for, and each descriptor given to a new
    inode is the one that operation chose. */
module CopyUpOrigins {
  import opened Widths
  import opened CopyUp
  import opened CopyUpMachine
  import opened CopyUpLedger

  /** The path as it was seen, with the inode it showed. */
  predicate PinnedAs(pin: Option<Pin>, seen: Vfs, path: Path) {
    pin.Some? && pin.value.path == path && InodeOf(seen, path.dentry) == Some(pin.value.inode)
  }

  /** The armed phase is the one the operation asks for, of a context whose provider is
      `source` with descriptor `sd`. */
  predicate AsAsked(op: Op, source: Pin, sd: Bytes, a: Armed) {
    match op
    case DoSourceRead => a.phase.SourceRead? && a.provider.None?
    case DoOrphanMarker => a.phase.OrphanMarker? && a.provider.None?
    case DoPopulate => a.phase.Populate? && a.provider.None?
    case DoCreate(seen, provider, effective, parent, dest, format, anonymous) =>
      && a.phase.Create? && PinnedAs(a.provider, seen, provider) && PinnedAs(a.parent, seen, parent)
      && a.dentry == dest && a.format == format && a.anonymous == anonymous
      && Some(a.sd) == (if provider == source.path then Some(sd) else effective)
      && (if provider == source.path then a.provider == Some(source) else a.sd != [])
    case DoPublish(seen, parent, target, rename) =>
      && a.phase == (if rename then PublishRename else PublishLink)
      && PinnedAs(a.parent, seen, parent) && a.dentry == Some(target) && a.name == NameOf(seen, target)
    case DoCleanup(seen, parent, victim, directory) =>
      && a.phase.Cleanup? && PinnedAs(a.parent, seen, parent) && a.dentry == Some(victim)
      && a.inode.Some? && a.inode == InodeOf(seen, victim) && a.directory == directory && !a.orphan
    case DoOrphanCleanup(seen, parent, victim, directory) =>
      && a.phase.Cleanup? && PinnedAs(a.parent, seen, parent) && a.dentry == Some(victim)
      && victim == source.path.dentry
      && a.inode.Some? && a.inode == InodeOf(seen, victim) && a.directory == directory && a.orphan
    case _ => false
  }

  /** What a phase was asked for does not change while it is armed. */
  predicate SameOrder(a: Armed, b: Armed) {
    && a.phase == b.phase && a.provider == b.provider && a.sd == b.sd && a.parent == b.parent && a.dentry == b.dentry
    && a.name == b.name && a.inode == b.inode && a.format == b.format && a.anonymous == b.anonymous
    && a.directory == b.directory && a.orphan == b.orphan
  }

  /** What a context was begun with. */
  predicate SameBeginning(c: Context, d: Context) {
    d.provider == c.provider && d.providerSd == c.providerSd && d.capability == c.capability && d.userNs == c.userNs
  }

  /** Disarmed, still armed for the same, or armed by this operation. */
  predicate Rearms(c: Context, d: Context, op: Op) {
    || d.armed.phase.NoPhase?
    || (d.generation == c.generation && SameOrder(c.armed, d.armed))
    || (d.generation == c.generation + 1 && AsAsked(op, c.provider, c.providerSd, d.armed))
  }

  lemma CreateRearms(c: Context, v: Vfs, op: Op)
    requires op.DoCreate?
    ensures
      var d := Apply(c, v, op);
      SameBeginning(c, d) && Rearms(c, d, op) && d.past.stamps == c.past.stamps
  {}

  lemma ArmRearms(c: Context, v: Vfs, op: Op)
    requires op.DoSourceRead? || op.DoOrphanMarker? || op.DoPopulate? || op.DoPublish?
    ensures
      var d := Apply(c, v, op);
      SameBeginning(c, d) && Rearms(c, d, op) && d.past.stamps == c.past.stamps
  {
    hide StagingValid;
  }

  lemma CleanupRearms(c: Context, v: Vfs, op: Op)
    requires op.DoCleanup? || op.DoOrphanCleanup?
    ensures
      var d := Apply(c, v, op);
      SameBeginning(c, d) && Rearms(c, d, op) && d.past.stamps == c.past.stamps
  {
    hide Tracked;
  }

  lemma CreationOpsRearm(c: Context, v: Vfs, op: Op)
    requires op.DoDentryCreate? || op.DoCreateHook? || op.DoConfirm? || op.DoBind? || op.DoRebind?
    ensures
      var d := Apply(c, v, op);
      SameBeginning(c, d) && Rearms(c, d, op) && d.past.stamps == c.past.stamps
  {
    hide ConfirmArguments;
    hide AllowsCreate;
    hide AsAsked;
  }

  lemma LaterOpsRearm(c: Context, v: Vfs, op: Op)
    requires op.DoFinishPublish? || op.DoEnd? || op.DoClone? || op.DoCapabilityHook? || op.DoCloneEnd?
    ensures
      var d := Apply(c, v, op);
      SameBeginning(c, d) && Rearms(c, d, op) && d.past.stamps == c.past.stamps
  {
    hide StagingValid;
    hide AllowsCapabilitySetxattr;
    hide PublishedMatches;
    hide AsAsked;
  }

  lemma ApplyRearms(c: Context, v: Vfs, op: Op)
    ensures
      var d := Apply(c, v, op);
      SameBeginning(c, d) && Rearms(c, d, op) && d.past.stamps == c.past.stamps
  {
    hide Apply;
    hide Rearms;
    if op.DoCreate? {
      CreateRearms(c, v, op);
    } else if op.DoSourceRead? || op.DoOrphanMarker? || op.DoPopulate? || op.DoPublish? {
      ArmRearms(c, v, op);
    } else if op.DoCleanup? || op.DoOrphanCleanup? {
      CleanupRearms(c, v, op);
    } else if op.DoDentryCreate? || op.DoCreateHook? || op.DoConfirm? || op.DoBind? || op.DoRebind? {
      CreationOpsRearm(c, v, op);
    } else {
      LaterOpsRearm(c, v, op);
    }
  }

  /** The creation hook may add one stamp, with the armed descriptor. */
  lemma InitStamps(c: Context, v: Vfs, i: Inode, format: Format, dir: Inode, name: string)
    ensures
      var (d, r) := InitSecurity(c, v, i, format, dir, name);
      && SameBeginning(c, d) && d.generation == c.generation && SameOrder(c.armed, d.armed)
      && (r.Matched? ==> c.armed.phase.Create? && r.bytes == c.armed.sd)
      && d.past.stamps == c.past.stamps + if r.Matched? then [Stamp(c.generation, i, c.armed.sd)] else []
  {
    hide InitNamed;
    assert c.past.stamps + [] == c.past.stamps;
  }

  lemma TmpfileStampsNothing(c: Context, v: Vfs, i: Inode, format: Format, superblock: nat)
    ensures
      var d := PostCreateTmpfile(c, v, i, format, superblock);
      SameBeginning(c, d) && d.generation == c.generation && SameOrder(c.armed, d.armed) &&
      d.past.stamps == c.past.stamps
  {}

  // ----- whole runs -----

  function Before(s0: State, xs: seq<Action>, i: nat): State
    requires i <= |xs|
  {
    Execute(s0, xs[..i])
  }

  /** Action `b` began context `c`. */
  predicate BegunAt(s0: State, xs: seq<Action>, b: nat, c: Ctx) {
    b < |xs| && xs[b].Begin? && |Before(s0, xs, b).contexts| == c && |Before(s0, xs, b + 1).contexts| == c + 1
  }

  /** Action `k`, operation `op` of a task attached to context `c`, armed its generation `g`. */
  predicate ArmedAt(s0: State, xs: seq<Action>, k: nat, c: Ctx, g: nat, op: Op) {
    && k < |xs| && xs[k].Operate? && xs[k].op == op
    && Owned(Before(s0, xs, k), xs[k].t) && Before(s0, xs, k).tasks[xs[k].t].ctx == Some(c)
    && Before(s0, xs, k).contexts[c].generation + 1 == g
    && c < |Before(s0, xs, k + 1).contexts|
    && Before(s0, xs, k + 1).contexts[c].generation == g
  }

  /** Action `k`, a creation hook of a task attached to context `c` in its generation `g`,
      saw inode `i`. */
  predicate HookedAt(s0: State, xs: seq<Action>, k: nat, c: Ctx, g: nat, i: Inode) {
    && k < |xs| && xs[k].InitHook? && xs[k].i == i
    && Owned(Before(s0, xs, k), xs[k].t) && Before(s0, xs, k).tasks[xs[k].t].ctx == Some(c)
    && Before(s0, xs, k).contexts[c].generation == g
  }

  predicate BegunFrom(x: Action, c: Context) {
    && x.Begin? && c.provider.path == x.provider && InodeOf(x.seen, x.provider.dentry) == Some(c.provider.inode)
    && c.providerSd == x.sd && x.sd != [] && c.capability == x.capability && c.userNs == x.userNs
  }

  /** The operation that pinned the descriptor of a stamp chose it: the descriptor the
      context was begun with, for its own provider, or the effective one of another. */
  predicate ChosenBy(op: Op, source: Pin, sd: Bytes, bytes: Bytes) {
    op.DoCreate? && Some(bytes) == if op.provider == source.path then Some(sd) else op.effective
  }

  ghost predicate Begun(s0: State, xs: seq<Action>, c: Ctx, k: Context) {
    exists b: nat :: BegunAt(s0, xs, b, c) && BegunFrom(xs[b], k)
  }

  ghost predicate PhaseAsked(s0: State, xs: seq<Action>, c: Ctx, k: Context) {
    exists j: nat, op :: ArmedAt(s0, xs, j, c, k.generation, op) && AsAsked(op, k.provider, k.providerSd, k.armed)
  }

  ghost predicate StampChosen(s0: State, xs: seq<Action>, c: Ctx, k: Context, stamp: Stamp) {
    && (exists j: nat, op :: ArmedAt(s0, xs, j, c, stamp.generation, op) &&
                             ChosenBy(op, k.provider, k.providerSd, stamp.bytes))
    && exists q: nat :: HookedAt(s0, xs, q, c, stamp.generation, stamp.inode)
  }

  /** A beginning, an armed phase and stamps, each with the action it goes back to. */
  ghost predicate Originated(s0: State, xs: seq<Action>, c: Ctx, k: Context) {
    && Begun(s0, xs, c, k)
    && (!k.armed.phase.NoPhase? ==> PhaseAsked(s0, xs, c, k))
    && (forall i :: 0 <= i < |k.past.stamps| ==> StampChosen(s0, xs, c, k, k.past.stamps[i]))
  }

  lemma BeforePrefix(s0: State, xs: seq<Action>, k: nat, i: nat)
    requires i <= k <= |xs|
    ensures Before(s0, xs[..k], i) == Before(s0, xs, i)
  {
    assert xs[..k][..i] == xs[..i];
  }

  lemma BeforeEnd(s0: State, xs: seq<Action>)
    ensures Before(s0, xs, |xs|) == Execute(s0, xs)
  {
    assert xs[..|xs|] == xs;
  }

  lemma BegunGrows(s0: State, xs: seq<Action>, c: Ctx, k: Context, d: Context)
    requires xs != [] && Begun(s0, xs[..|xs| - 1], c, k) && SameBeginning(k, d)
    ensures Begun(s0, xs, c, d)
  {
    hide Step;
    var ys := xs[..|xs| - 1];
    var b: nat :| BegunAt(s0, ys, b, c) && BegunFrom(ys[b], k);
    BeforePrefix(s0, xs, |xs| - 1, b);
    BeforePrefix(s0, xs, |xs| - 1, b + 1);
    assert BegunAt(s0, xs, b, c);
  }

  lemma ArmedGrows(s0: State, xs: seq<Action>, k: nat, c: Ctx, g: nat, op: Op)
    requires xs != [] && ArmedAt(s0, xs[..|xs| - 1], k, c, g, op)
    ensures ArmedAt(s0, xs, k, c, g, op)
  {
    hide Step;
    BeforePrefix(s0, xs, |xs| - 1, k);
    BeforePrefix(s0, xs, |xs| - 1, k + 1);
  }

  lemma HookedGrows(s0: State, xs: seq<Action>, k: nat, c: Ctx, g: nat, i: Inode)
    requires xs != [] && HookedAt(s0, xs[..|xs| - 1], k, c, g, i)
    ensures HookedAt(s0, xs, k, c, g, i)
  {
    hide Step;
    BeforePrefix(s0, xs, |xs| - 1, k);
  }

  lemma PhaseStaysAsked(s0: State, xs: seq<Action>, c: Ctx, k: Context, d: Context)
    requires xs != [] && PhaseAsked(s0, xs[..|xs| - 1], c, k)
    requires SameBeginning(k, d) && d.generation == k.generation && SameOrder(k.armed, d.armed)
    ensures PhaseAsked(s0, xs, c, d)
  {
    hide ArmedAt;
    var ys := xs[..|xs| - 1];
    var j: nat, op :| ArmedAt(s0, ys, j, c, k.generation, op) && AsAsked(op, k.provider, k.providerSd, k.armed);
    ArmedGrows(s0, xs, j, c, k.generation, op);
  }

  lemma PhaseAskedNow(s0: State, xs: seq<Action>, c: Ctx, k: Context, d: Context)
    requires xs != [] && xs[|xs| - 1].Operate?
    requires
      var s := Execute(s0, xs[..|xs| - 1]);
      && Owned(s, xs[|xs| - 1].t) && s.tasks[xs[|xs| - 1].t].ctx == Some(c) && s.contexts[c] == k
      && c < |Execute(s0, xs).contexts| && Execute(s0, xs).contexts[c] == d
    requires SameBeginning(k, d) && d.generation == k.generation + 1
    requires AsAsked(xs[|xs| - 1].op, k.provider, k.providerSd, d.armed)
    ensures PhaseAsked(s0, xs, c, d)
  {
    hide Step;
    BeforeEnd(s0, xs);
    assert ArmedAt(s0, xs, |xs| - 1, c, d.generation, xs[|xs| - 1].op);
  }

  lemma StampStaysChosen(s0: State, xs: seq<Action>, c: Ctx, k: Context, d: Context, stamp: Stamp)
    requires xs != [] && StampChosen(s0, xs[..|xs| - 1], c, k, stamp) && SameBeginning(k, d)
    ensures StampChosen(s0, xs, c, d, stamp)
  {
    hide ArmedAt;
    hide HookedAt;
    var ys := xs[..|xs| - 1];
    var j: nat, op :| ArmedAt(s0, ys, j, c, stamp.generation, op) &&
                      ChosenBy(op, k.provider, k.providerSd, stamp.bytes);
    ArmedGrows(s0, xs, j, c, stamp.generation, op);
    var q: nat :| HookedAt(s0, ys, q, c, stamp.generation, stamp.inode);
    HookedGrows(s0, xs, q, c, stamp.generation, stamp.inode);
  }

  /** A stamp uses the descriptor of the phase that is armed. */
  lemma StampChosenNow(s0: State, xs: seq<Action>, c: Ctx, k: Context, d: Context, i: Inode)
    requires xs != [] && xs[|xs| - 1].InitHook? && xs[|xs| - 1].i == i
    requires
      var s := Execute(s0, xs[..|xs| - 1]);
      Owned(s, xs[|xs| - 1].t) && s.tasks[xs[|xs| - 1].t].ctx == Some(c) && s.contexts[c] == k
    requires SameBeginning(k, d) && k.armed.phase.Create? && PhaseAsked(s0, xs[..|xs| - 1], c, k)
    ensures StampChosen(s0, xs, c, d, Stamp(k.generation, i, k.armed.sd))
  {
    hide Step;
    hide ArmedAt;
    var ys := xs[..|xs| - 1];
    var j: nat, op :| ArmedAt(s0, ys, j, c, k.generation, op) && AsAsked(op, k.provider, k.providerSd, k.armed);
    ArmedGrows(s0, xs, j, c, k.generation, op);
    assert ChosenBy(op, d.provider, d.providerSd, k.armed.sd);
    assert HookedAt(s0, xs, |xs| - 1, c, k.generation, i);
  }

  /** What one step keeps of a context that was there before. */
  lemma StaysOriginated(s0: State, xs: seq<Action>, c: Ctx, k: Context, d: Context)
    requires xs != [] && Originated(s0, xs[..|xs| - 1], c, k)
    requires SameBeginning(k, d) && d.past.stamps == k.past.stamps
    requires d.armed.phase.NoPhase? || (d.generation == k.generation && SameOrder(k.armed, d.armed)) ||
             PhaseAsked(s0, xs, c, d)
    ensures Originated(s0, xs, c, d)
  {
    hide StampChosen;
    hide PhaseAsked;
    hide Begun;
    BegunGrows(s0, xs, c, k, d);
    if !d.armed.phase.NoPhase? && d.generation == k.generation && SameOrder(k.armed, d.armed) {
      PhaseStaysAsked(s0, xs, c, k, d);
    }
    forall i | 0 <= i < |d.past.stamps| ensures StampChosen(s0, xs, c, d, d.past.stamps[i]) {
      StampStaysChosen(s0, xs, c, k, d, k.past.stamps[i]);
    }
  }

  lemma HookStaysOriginated(s0: State, xs: seq<Action>, c: Ctx, k: Context, d: Context)
    requires xs != [] && Originated(s0, xs[..|xs| - 1], c, k) && xs[|xs| - 1].InitHook?
    requires
      var s, x := Execute(s0, xs[..|xs| - 1]), xs[|xs| - 1];
      && Owned(s, x.t) && s.tasks[x.t].ctx == Some(c) && s.contexts[c] == k
      && d == InitSecurity(k, s.vfs, x.i, x.format, x.dir, x.name).0
    ensures Originated(s0, xs, c, d)
  {
    hide StampChosen;
    hide PhaseAsked;
    hide Begun;
    hide Step;
    hide InitSecurity;
    var s, x := Execute(s0, xs[..|xs| - 1]), xs[|xs| - 1];
    InitStamps(k, s.vfs, x.i, x.format, x.dir, x.name);
    BegunGrows(s0, xs, c, k, d);
    if !d.armed.phase.NoPhase? {
      PhaseStaysAsked(s0, xs, c, k, d);
    }
    forall i | 0 <= i < |d.past.stamps| ensures StampChosen(s0, xs, c, d, d.past.stamps[i]) {
      if i < |k.past.stamps| {
        StampStaysChosen(s0, xs, c, k, d, k.past.stamps[i]);
      } else {
        StampChosenNow(s0, xs, c, k, d, x.i);
      }
    }
  }

  lemma NewOriginated(s0: State, xs: seq<Action>, c: Ctx)
    requires xs != [] && c >= |Execute(s0, xs[..|xs| - 1]).contexts| && c < |Execute(s0, xs).contexts|
    ensures Originated(s0, xs, c, Execute(s0, xs).contexts[c])
  {
    var s, x := Execute(s0, xs[..|xs| - 1]), xs[|xs| - 1];
    hide Step;
    OneContextAtATime(s, x);
    ContextMoves(s, x, c);
    BeforeEnd(s0, xs);
    assert BegunAt(s0, xs, |xs| - 1, c);
  }

  lemma OneContextAtATime(s: State, x: Action)
    ensures |s.contexts| <= |Step(s, x).contexts| <= |s.contexts| + 1
    ensures |Step(s, x).contexts| > |s.contexts| ==> x.Begin?
  {
    hide Apply;
    hide InitSecurity;
    hide PostCreateTmpfile;
    hide FileAllowed;
    hide Resumable;
    hide StagingPath;
  }

  lemma ContextStaysOriginated(s0: State, xs: seq<Action>, c: Ctx)
    requires xs != [] && c < |Execute(s0, xs[..|xs| - 1]).contexts| && c < |Execute(s0, xs).contexts|
    requires Originated(s0, xs[..|xs| - 1], c, Execute(s0, xs[..|xs| - 1]).contexts[c])
    ensures Originated(s0, xs, c, Execute(s0, xs).contexts[c])
  {
    hide Step;
    hide Originated;
    hide Apply;
    hide InitSecurity;
    hide PostCreateTmpfile;
    hide AsAsked;
    var s, x := Execute(s0, xs[..|xs| - 1]), xs[|xs| - 1];
    var k, d := s.contexts[c], Execute(s0, xs).contexts[c];
    ContextMoves(s, x, c);
    if d == k {
      StaysOriginated(s0, xs, c, k, d);
    } else if x.Operate? {
      ApplyRearms(k, s.vfs, x.op);
      if d.generation == k.generation + 1 && AsAsked(x.op, k.provider, k.providerSd, d.armed) {
        PhaseAskedNow(s0, xs, c, k, d);
      }
      StaysOriginated(s0, xs, c, k, d);
    } else if x.InitHook? {
      HookStaysOriginated(s0, xs, c, k, d);
    } else if x.TmpfileHook? {
      TmpfileStampsNothing(k, s.vfs, x.i, x.format, x.superblock);
      StaysOriginated(s0, xs, c, k, d);
    } else {
      StaysOriginated(s0, xs, c, k, d);
    }
  }

  lemma {:induction false} AlwaysOriginated(n: nat, v: Vfs, xs: seq<Action>, c: Ctx)
    requires c < |Execute(Init(n, v), xs).contexts|
    ensures Originated(Init(n, v), xs, c, Execute(Init(n, v), xs).contexts[c])
  {
    hide Step;
    hide Originated;
    if xs != [] {
      if c < |Execute(Init(n, v), xs[..|xs| - 1]).contexts| {
        AlwaysOriginated(n, v, xs[..|xs| - 1], c);
        ContextStaysOriginated(Init(n, v), xs, c);
      } else {
        NewOriginated(Init(n, v), xs, c);
      }
    }
  }

  // ----- what that means -----

  /** The descriptor that creation `op` of a context begun by `begin` is to give out. */
  predicate Chooses(begin: Action, op: Op, bytes: Bytes) {
    && begin.Begin? && op.DoCreate?
    && Some(bytes) == if op.provider == begin.provider then Some(begin.sd) else op.effective
  }

  /** Every descriptor ever given to a new inode goes back to three actions: one that
      began the context, one that armed the creation, and the hook that saw the inode.
      Its bytes are those the context was begun with when the creation names the
      context's own provider, and the named provider's effective ones otherwise. */
  lemma StampsCarryTheChosenDescriptor(n: nat, v: Vfs, xs: seq<Action>, c: Ctx, i: nat)
    returns (b: nat, j: nat, q: nat)
    requires c < |Execute(Init(n, v), xs).contexts|
    requires i < |Execute(Init(n, v), xs).contexts[c].past.stamps|
    ensures
      var stamp := Execute(Init(n, v), xs).contexts[c].past.stamps[i];
      && BegunAt(Init(n, v), xs, b, c)
      && j < |xs| && xs[j].Operate? && ArmedAt(Init(n, v), xs, j, c, stamp.generation, xs[j].op)
      && Chooses(xs[b], xs[j].op, stamp.bytes)
      && HookedAt(Init(n, v), xs, q, c, stamp.generation, stamp.inode)
  {
    hide Step;
    var s0, k := Init(n, v), Execute(Init(n, v), xs).contexts[c];
    AlwaysOriginated(n, v, xs, c);
    b :| BegunAt(s0, xs, b, c) && BegunFrom(xs[b], k);
    var stamp := k.past.stamps[i];
    assert StampChosen(s0, xs, c, k, stamp);
    var op;
    j, op :| ArmedAt(s0, xs, j, c, stamp.generation, op) && ChosenBy(op, k.provider, k.providerSd, stamp.bytes);
    q :| HookedAt(s0, xs, q, c, stamp.generation, stamp.inode);
  }

  /** What the creation hook answers, at any moment of any run: it supplies a descriptor
      exactly once in a creation phase, the one that phase's creation is to give out. */
  lemma HookSuppliesTheChosenDescriptor(n: nat, v: Vfs, xs: seq<Action>, c: Ctx, i: Inode, format: Format, dir: Inode,
                                        name: string)
    returns (b: nat, j: nat)
    requires c < |Execute(Init(n, v), xs).contexts|
    requires
      var s := Execute(Init(n, v), xs);
      InitSecurity(s.contexts[c], s.vfs, i, format, dir, name).1.Matched?
    ensures
      var s := Execute(Init(n, v), xs);
      var r := InitSecurity(s.contexts[c], s.vfs, i, format, dir, name).1;
      && BegunAt(Init(n, v), xs, b, c)
      && j < |xs| && xs[j].Operate? && ArmedAt(Init(n, v), xs, j, c, s.contexts[c].generation, xs[j].op)
      && Chooses(xs[b], xs[j].op, r.bytes)
      && s.contexts[c].generation !in Generations(s.contexts[c].past.stamps)
  {
    hide Step;
    hide InitSecurity;
    var s0, s := Init(n, v), Execute(Init(n, v), xs);
    var k := s.contexts[c];
    AlwaysOriginated(n, v, xs, c);
    CreatesAndStampsOnce(n, v, xs, c);
    InitStamps(k, s.vfs, i, format, dir, name);
    b :| BegunAt(s0, xs, b, c) && BegunFrom(xs[b], k);
    var op;
    j, op :| ArmedAt(s0, xs, j, c, k.generation, op) && AsAsked(op, k.provider, k.providerSd, k.armed);
  }
}
