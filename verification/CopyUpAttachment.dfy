/** Who holds a copy-up context: at most one task is attached to it, and its
    reference count is exactly its owners, its attachment and its bound files, in
    every state of every run, half-finished enters and leaves included. */
module CopyUpAttachment {
  import opened Widths
  import opened CopyUp
  import opened CopyUpMachine

  predicate Attaches(task: Task, c: Ctx) {
    task.ctx == Some(c) || task.pc == Attaching(c) || task.pc == Referencing(c) || task.pc == Detaching(c)
  }

  predicate References(task: Task, c: Ctx) {
    task.ctx == Some(c) || task.pc == Referencing(c) || task.pc == Detaching(c) || task.pc == Dropping(c)
  }

  function Bit(b: bool): nat {
    if b then 1 else 0
  }

  function AttachCount(tasks: seq<Task>, c: Ctx): nat {
    if tasks == [] then 0 else Bit(Attaches(tasks[0], c)) + AttachCount(tasks[1..], c)
  }

  function ReferenceCount(tasks: seq<Task>, c: Ctx): nat {
    if tasks == [] then 0 else Bit(References(tasks[0], c)) + ReferenceCount(tasks[1..], c)
  }

  function FileCount(files: seq<File>, c: Ctx): nat {
    if files == [] then 0 else Bit(files[0].ctx == Some(c)) + FileCount(files[1..], c)
  }

  /** The account of one context. */
  predicate Balanced(s: State, c: Ctx)
    requires c < |s.contexts|
  {
    && AttachCount(s.tasks, c) == Bit(s.contexts[c].hold.attached)
    && s.contexts[c].hold.refs == s.contexts[c].hold.owners + ReferenceCount(s.tasks, c) + FileCount(s.files, c)
    && Entering(s.tasks, c) <= s.contexts[c].hold.owners
  }

  predicate TaskSane(task: Task, n: nat) {
    && (task.ctx.Some? ==> task.pc.Calm? && task.ctx.value < n)
    && (!task.pc.Calm? ==> task.pc.c < n)
  }

  /** An armed phase belongs to an attached task. */
  ghost predicate ArmedIsCarried(s: State, c: Ctx)
    requires c < |s.contexts|
  {
    !s.contexts[c].armed.phase.NoPhase? ==> exists t :: 0 <= t < |s.tasks| && s.tasks[t].ctx == Some(c)
  }

  ghost predicate Sane(s: State) {
    && (forall t :: 0 <= t < |s.tasks| ==> TaskSane(s.tasks[t], |s.contexts|))
    && (forall f :: 0 <= f < |s.files| ==> s.files[f].ctx.Some? ==> s.files[f].ctx.value < |s.contexts|)
    && (forall c :: 0 <= c < |s.contexts| ==> Balanced(s, c))
    && (forall c :: 0 <= c < |s.contexts| ==> ArmedIsCarried(s, c))
  }

  // ----- counting -----

  lemma {:induction false} TasksUpdate(tasks: seq<Task>, t: nat, task: Task, c: Ctx)
    requires t < |tasks|
    ensures AttachCount(tasks[t := task], c) + Bit(Attaches(tasks[t], c)) ==
            AttachCount(tasks, c) + Bit(Attaches(task, c))
    ensures ReferenceCount(tasks[t := task], c) + Bit(References(tasks[t], c)) ==
            ReferenceCount(tasks, c) + Bit(References(task, c))
    ensures Entering(tasks[t := task], c) + Bit(tasks[t].pc == Attaching(c)) ==
            Entering(tasks, c) + Bit(task.pc == Attaching(c))
  {
    hide Attaches;
    hide References;
    if t == 0 {
      assert tasks[t := task][1..] == tasks[1..];
    } else {
      assert tasks[t := task][1..] == tasks[1..][t - 1 := task];
      TasksUpdate(tasks[1..], t - 1, task, c);
    }
  }

  lemma {:induction false} FilesUpdate(files: seq<File>, f: nat, file: File, c: Ctx)
    requires f < |files|
    ensures FileCount(files[f := file], c) + Bit(files[f].ctx == Some(c)) ==
            FileCount(files, c) + Bit(file.ctx == Some(c))
  {
    if f == 0 {
      assert files[f := file][1..] == files[1..];
    } else {
      assert files[f := file][1..] == files[1..][f - 1 := file];
      FilesUpdate(files[1..], f - 1, file, c);
    }
  }

  lemma {:induction false} FilesAppend(files: seq<File>, file: File, c: Ctx)
    ensures FileCount(files + [file], c) == FileCount(files, c) + Bit(file.ctx == Some(c))
  {
    if files != [] {
      assert (files + [file])[1..] == files[1..] + [file];
      FilesAppend(files[1..], file, c);
    }
  }

  lemma {:induction false} NobodyHolds(tasks: seq<Task>, files: seq<File>, c: Ctx)
    requires forall t :: 0 <= t < |tasks| ==> !Attaches(tasks[t], c) && !References(tasks[t], c)
    requires forall f :: 0 <= f < |files| ==> files[f].ctx != Some(c)
    ensures AttachCount(tasks, c) == 0 && ReferenceCount(tasks, c) == 0 && Entering(tasks, c) == 0 &&
            FileCount(files, c) == 0
  {
    if tasks != [] {
      NobodyHolds(tasks[1..], files, c);
      assert !Attaches(tasks[0], c);
    } else if files != [] {
      NobodyHolds(tasks, files[1..], c);
    }
  }

  lemma {:induction false} CountsAtLeast(tasks: seq<Task>, t: nat, c: Ctx)
    requires t < |tasks|
    ensures AttachCount(tasks, c) >= Bit(Attaches(tasks[t], c))
    ensures ReferenceCount(tasks, c) >= Bit(References(tasks[t], c))
    ensures Entering(tasks, c) >= Bit(tasks[t].pc == Attaching(c))
  {
    if t > 0 {
      CountsAtLeast(tasks[1..], t - 1, c);
    }
  }

  lemma {:induction false} FilesAtLeast(files: seq<File>, f: nat, c: Ctx)
    requires f < |files|
    ensures FileCount(files, c) >= Bit(files[f].ctx == Some(c))
  {
    if f > 0 {
      FilesAtLeast(files[1..], f - 1, c);
    }
  }

  lemma {:induction false} TwoAttached(tasks: seq<Task>, t: nat, u: nat, c: Ctx)
    requires t < u < |tasks| && Attaches(tasks[t], c) && Attaches(tasks[u], c)
    ensures AttachCount(tasks, c) >= 2
  {
    if t == 0 {
      CountsAtLeast(tasks[1..], u - 1, c);
    } else {
      TwoAttached(tasks[1..], t - 1, u - 1, c);
    }
  }

  // ----- steps -----

  /** A context operation touches no reference, attachment or owner. */
  predicate SameHolders(c: Context, d: Context) {
    d.hold == c.hold
  }

  lemma ApplyKeepsHolders(c: Context, v: Vfs, op: Op)
    ensures SameHolders(c, Apply(c, v, op))
  {}

  lemma HooksKeepHolders(c: Context, v: Vfs, i: Inode, format: Format, dir: Inode, name: string, superblock: nat)
    ensures SameHolders(c, InitSecurity(c, v, i, format, dir, name).0)
    ensures SameHolders(c, PostCreateTmpfile(c, v, i, format, superblock))
    ensures InitSecurity(c, v, i, format, dir, name).0.armed.phase == c.armed.phase
    ensures PostCreateTmpfile(c, v, i, format, superblock).armed.phase == c.armed.phase
  {}

  /** A task that acts on its context carries it, so its phase is carried. */
  lemma OwnContextSane(s: State, t: nat, d: Context, r: State)
    requires Sane(s) && Owned(s, t) && SameHolders(s.contexts[s.tasks[t].ctx.value], d)
    requires r.contexts == s.contexts[s.tasks[t].ctx.value := d] && r.tasks == s.tasks && r.files == s.files
    ensures Sane(r)
  {
    var id := s.tasks[t].ctx.value;
    forall c | 0 <= c < |r.contexts| ensures Balanced(r, c) && ArmedIsCarried(r, c) {
      assert Balanced(s, c) && ArmedIsCarried(s, c);
      if c == id {
        assert r.tasks[t].ctx == Some(c);
      }
    }
  }

  lemma OperateSane(s: State, t: nat, op: Op)
    requires Sane(s)
    ensures Sane(Step(s, Operate(t, op)))
  {
    hide Sane;
    hide Apply;
    if Owned(s, t) {
      ApplyKeepsHolders(s.contexts[s.tasks[t].ctx.value], s.vfs, op);
      OwnContextSane(s, t, Apply(s.contexts[s.tasks[t].ctx.value], s.vfs, op), Step(s, Operate(t, op)));
    }
  }

  lemma CreationSane(s: State, x: Action)
    requires Sane(s) && (x.InitHook? || x.TmpfileHook? || x.Instantiate?)
    ensures Sane(Creation(s, x))
  {
    hide Sane;
    hide InitSecurity;
    hide PostCreateTmpfile;
    if Owned(s, x.t) && x.i !in s.born {
      var id := s.tasks[x.t].ctx.value;
      var c := s.contexts[id];
      match x {
        case InitHook(t, i, format, dir, name) => HooksKeepHolders(c, s.vfs, i, format, dir, name, 0);
        case TmpfileHook(t, i, format, superblock) => HooksKeepHolders(c, s.vfs, i, format, 0, "", superblock);
        case Instantiate(t, d, i) =>
      }
      var r := Creation(s, x);
      if r.contexts != s.contexts {
        OwnContextSane(s, x.t, r.contexts[id], r);
      } else {
        SaneKept(s, r);
      }
    }
  }

  lemma SaneKept(s: State, r: State)
    requires Sane(s) && r.contexts == s.contexts && r.tasks == s.tasks && r.files == s.files
    ensures Sane(r)
  {
    forall c | 0 <= c < |r.contexts| ensures Balanced(r, c) && ArmedIsCarried(r, c) {
      assert Balanced(s, c) && ArmedIsCarried(s, c);
    }
  }

  /** One task moves and one context changes its holders by the same amounts. */
  lemma TaskMoves(s: State, t: nat, task: Task, id: Ctx, d: Context, r: State)
    requires Sane(s) && t < |s.tasks| && id < |s.contexts|
    requires r == SetTask(SetContext(s, id, d), t, task)
    requires TaskSane(task, |s.contexts|)
    requires forall c :: c != id ==>
               Attaches(task, c) == Attaches(s.tasks[t], c) && References(task, c) == References(s.tasks[t], c)
    requires forall c :: c != id ==> (task.pc == Attaching(c) <==> s.tasks[t].pc == Attaching(c))
    requires Bit(d.hold.attached) + Bit(Attaches(s.tasks[t], id)) ==
             Bit(s.contexts[id].hold.attached) + Bit(Attaches(task, id))
    requires d.hold.refs + Bit(References(s.tasks[t], id)) == s.contexts[id].hold.refs + Bit(References(task, id))
    requires d.hold.owners == s.contexts[id].hold.owners
    requires task.pc == Attaching(id) && s.tasks[t].pc != Attaching(id) ==> Entering(s.tasks, id) < d.hold.owners
    requires d.armed.phase.NoPhase? || d.armed.phase == s.contexts[id].armed.phase
    requires d.armed.phase.NoPhase? || (s.tasks[t].ctx == Some(id) ==> task.ctx == Some(id))
    requires s.tasks[t].ctx.Some? ==> s.tasks[t].ctx == Some(id)
    ensures Sane(r)
  {
    forall c | 0 <= c < |r.contexts| ensures Balanced(r, c) && ArmedIsCarried(r, c) {
      assert Balanced(s, c) && ArmedIsCarried(s, c);
      TasksUpdate(s.tasks, t, task, c);
      if !r.contexts[c].armed.phase.NoPhase? {
        var u :| 0 <= u < |s.tasks| && s.tasks[u].ctx == Some(c);
        assert r.tasks[u].ctx == Some(c);
      }
    }
  }

  lemma EnterLeaveSane(s: State, x: Action)
    requires Sane(s)
    requires x.EnterAttach? || x.EnterReference? || x.EnterPublish? || x.LeaveDetach? || x.LeaveRelease? || x.LeaveDrop?
    ensures Sane(EnterLeave(s, x))
  {
    if x.t < |s.tasks| {
      var t, task, r := x.t, s.tasks[x.t], EnterLeave(s, x);
      assert TaskSane(task, |s.contexts|);
      var id := if x.EnterAttach? then x.c else if task.ctx.Some? then task.ctx.value
                else if task.pc.Calm? then 0 else task.pc.c;
      if r != s {
        assert Balanced(s, id);
        CountsAtLeast(s.tasks, t, id);
        hide Sane;
        assert r == SetTask(SetContext(s, id, r.contexts[id]), t, r.tasks[t]);
        TaskMoves(s, t, r.tasks[t], id, r.contexts[id], r);
      }
    }
  }

  lemma OwnersSane(s: State, x: Action)
    requires Sane(s) && (x.Begin? || x.Get? || x.Put?)
    ensures Sane(Owners(s, x))
  {
    var r := Owners(s, x);
    if x.Begin? {
      BeginSane(s, x);
    } else {
      forall c | 0 <= c < |r.contexts| ensures Balanced(r, c) && ArmedIsCarried(r, c) {
        assert Balanced(s, c) && ArmedIsCarried(s, c);
      }
    }
  }

  lemma BeginSane(s: State, x: Action)
    requires Sane(s) && x.Begin?
    ensures Sane(Owners(s, x))
  {
    var r := Owners(s, x);
    forall c | 0 <= c < |r.contexts| ensures Balanced(r, c) && ArmedIsCarried(r, c) {
      if c < |s.contexts| {
        assert Balanced(s, c) && ArmedIsCarried(s, c);
      } else {
        NobodyHolds(s.tasks, s.files, c);
      }
    }
    forall t | 0 <= t < |r.tasks| ensures TaskSane(r.tasks[t], |r.contexts|) {
      assert TaskSane(s.tasks[t], |s.contexts|);
    }
  }

  /** References move with the files that hold them. */
  predicate FilesMoved(s: State, r: State) {
    && r.tasks == s.tasks && |r.contexts| == |s.contexts|
    && (forall f :: 0 <= f < |r.files| ==> r.files[f].ctx.Some? ==> r.files[f].ctx.value < |s.contexts|)
    && forall c :: 0 <= c < |s.contexts| ==>
         && r.contexts[c] == s.contexts[c].(hold := s.contexts[c].hold.(refs := r.contexts[c].hold.refs))
         && r.contexts[c].hold.refs + FileCount(s.files, c) == s.contexts[c].hold.refs + FileCount(r.files, c)
  }

  lemma FilesMovedSane(s: State, r: State)
    requires Sane(s) && FilesMoved(s, r)
    ensures Sane(r)
  {
    forall c | 0 <= c < |r.contexts| ensures Balanced(r, c) && ArmedIsCarried(r, c) {
      assert Balanced(s, c) && ArmedIsCarried(s, c);
    }
  }

  lemma OpenMoves(s: State, x: Action)
    requires Sane(s) && x.Open?
    ensures FilesMoved(s, Files(s, x))
  {
    hide FileAllowed;
    hide Balanced;
    hide ArmedIsCarried;
    var r := Files(s, x);
    forall c | 0 <= c < |s.contexts| {
      FilesAppend(s.files, r.files[|s.files|], c);
    }
  }

  lemma BoundFileMoves(s: State, x: Action)
    requires Sane(s) && (x.Resume? || x.Release? || x.Adopt?)
    ensures FilesMoved(s, Files(s, x))
  {
    hide Resumable;
    hide StagingPath;
    hide ArmedIsCarried;
    var r := Files(s, x);
    if x.f < |s.files| {
      forall c | 0 <= c < |s.contexts|
        ensures r.contexts[c].hold.refs + FileCount(s.files, c) == s.contexts[c].hold.refs + FileCount(r.files, c)
      {
        assert Balanced(s, c);
        FilesUpdate(s.files, x.f, r.files[x.f], c);
        FilesAtLeast(s.files, x.f, c);
      }
    }
  }

  lemma StepSane(s: State, x: Action)
    requires Sane(s)
    ensures Sane(Step(s, x))
  {
    hide Sane;
    hide Files;
    hide Owners;
    hide Creation;
    hide EnterLeave;
    match x {
      case Environment(v) => SaneKept(s, Step(s, x));
      case Begin(_, _, _, _, _) => OwnersSane(s, x);
      case Get(_) => OwnersSane(s, x);
      case Put(_) => OwnersSane(s, x);
      case EnterAttach(_, _) => EnterLeaveSane(s, x);
      case EnterReference(_) => EnterLeaveSane(s, x);
      case EnterPublish(_) => EnterLeaveSane(s, x);
      case LeaveDetach(_) => EnterLeaveSane(s, x);
      case LeaveRelease(_) => EnterLeaveSane(s, x);
      case LeaveDrop(_) => EnterLeaveSane(s, x);
      case Operate(t, op) => OperateSane(s, t, op);
      case InitHook(_, _, _, _, _) => CreationSane(s, x);
      case TmpfileHook(_, _, _, _) => CreationSane(s, x);
      case Instantiate(_, _, _) => CreationSane(s, x);
      case Open(_, _, _, _, _, _) => OpenMoves(s, x); FilesMovedSane(s, Step(s, x));
      case Resume(_, _) => BoundFileMoves(s, x); FilesMovedSane(s, Step(s, x));
      case Release(_) => BoundFileMoves(s, x); FilesMovedSane(s, Step(s, x));
      case Adopt(_, _, _) => BoundFileMoves(s, x); FilesMovedSane(s, Step(s, x));
    }
  }

  /** The account balances in every reachable state. */
  lemma {:induction false} AlwaysSane(n: nat, v: Vfs, xs: seq<Action>)
    ensures Sane(Execute(Init(n, v), xs))
  {
    if xs != [] {
      AlwaysSane(n, v, xs[..|xs| - 1]);
      StepSane(Execute(Init(n, v), xs[..|xs| - 1]), xs[|xs| - 1]);
    }
  }

  /** At most one task is attached to a context, a task never enters a second one
      while it carries one, and an armed phase is carried by the attached task. */
  lemma AttachedOnce(n: nat, v: Vfs, xs: seq<Action>, c: Ctx, t: nat, u: nat)
    requires
      var s := Execute(Init(n, v), xs);
      && c < |s.contexts| && t < |s.tasks| && u < |s.tasks|
      && Attaches(s.tasks[t], c) && Attaches(s.tasks[u], c)
    ensures t == u
    ensures Execute(Init(n, v), xs).contexts[c].hold.attached
  {
    var s := Execute(Init(n, v), xs);
    AlwaysSane(n, v, xs);
    assert Balanced(s, c);
    CountsAtLeast(s.tasks, t, c);
    if t < u {
      TwoAttached(s.tasks, t, u, c);
    } else if u < t {
      TwoAttached(s.tasks, u, t, c);
    }
  }

  lemma ArmedMeansAttached(n: nat, v: Vfs, xs: seq<Action>, c: Ctx)
    requires
      var s := Execute(Init(n, v), xs);
      c < |s.contexts| && !s.contexts[c].armed.phase.NoPhase?
    ensures
      var s := Execute(Init(n, v), xs);
      s.contexts[c].hold.attached && exists t :: 0 <= t < |s.tasks| && s.tasks[t] == Task(Some(c), Calm)
  {
    var s := Execute(Init(n, v), xs);
    AlwaysSane(n, v, xs);
    assert ArmedIsCarried(s, c);
    var t :| 0 <= t < |s.tasks| && s.tasks[t].ctx == Some(c);
    assert TaskSane(s.tasks[t], |s.contexts|);
    AttachedOnce(n, v, xs, c, t, t);
  }

  /** Whoever can still reach a context finds it alive; in particular the reference
      that entering takes is always there to take. */
  lemma ReachableIsAlive(n: nat, v: Vfs, xs: seq<Action>, c: Ctx)
    requires c < |Execute(Init(n, v), xs).contexts|
    ensures
      var s := Execute(Init(n, v), xs);
      s.contexts[c].hold.refs == 0 ==>
        && (forall t :: 0 <= t < |s.tasks| ==> !Attaches(s.tasks[t], c) && !References(s.tasks[t], c))
        && (forall f :: 0 <= f < |s.files| ==> s.files[f].ctx != Some(c))
        && s.contexts[c].hold.owners == 0 && s.contexts[c].armed.phase.NoPhase?
  {
    var s := Execute(Init(n, v), xs);
    AlwaysSane(n, v, xs);
    assert Balanced(s, c) && ArmedIsCarried(s, c);
    if s.contexts[c].hold.refs == 0 {
      forall t | 0 <= t < |s.tasks| ensures !Attaches(s.tasks[t], c) && !References(s.tasks[t], c) {
        CountsAtLeast(s.tasks, t, c);
      }
      forall f | 0 <= f < |s.files| ensures s.files[f].ctx != Some(c) {
        FilesAtLeast(s.files, f, c);
      }
    }
  }

  /** A context that was destroyed is never used again. */
  lemma DestroyedOnce(n: nat, v: Vfs, xs: seq<Action>, x: Action, c: Ctx)
    requires c < |Execute(Init(n, v), xs).contexts|
    requires Execute(Init(n, v), xs).contexts[c].hold.refs == 0
    ensures
      var s, r := Execute(Init(n, v), xs), Step(Execute(Init(n, v), xs), x);
      c < |r.contexts| && r.contexts[c] == s.contexts[c]
  {
    hide Step;
    hide Execute;
    ReachableIsAlive(n, v, xs, c);
    DeadIsUntouched(Execute(Init(n, v), xs), x, c);
  }

  lemma DeadIsUntouched(s: State, x: Action, c: Ctx)
    requires c < |s.contexts| && s.contexts[c].hold.refs == 0 && s.contexts[c].hold.owners == 0
    requires forall t :: 0 <= t < |s.tasks| ==> !Attaches(s.tasks[t], c) && !References(s.tasks[t], c)
    requires forall f :: 0 <= f < |s.files| ==> s.files[f].ctx != Some(c)
    ensures c < |Step(s, x).contexts| && Step(s, x).contexts[c] == s.contexts[c]
  {
    hide Clear;
    hide Alloc;
    hide Made;
    hide Entering;
    hide Apply;
    hide InitSecurity;
    hide PostCreateTmpfile;
    hide FileAllowed;
    hide Resumable;
    hide StagingPath;
  }
}
