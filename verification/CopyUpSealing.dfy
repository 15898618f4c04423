/** Generation sealing: a file that copy-up opened for itself is admitted only while
    the very phase it was opened in is armed, and never again afterwards. */
module CopyUpSealing {
  import opened Widths
  import opened CopyUp
  import opened CopyUpMachine
  import opened CopyUpAttachment

  /** How the generation of a context may move in one step. */
  predicate Advances(c: Context, d: Context) {
    || (d.generation == c.generation && (d.armed.phase == c.armed.phase || d.armed.phase.NoPhase?))
    || (d.generation == c.generation + 1 && c.armed.phase.NoPhase? && d.generation < U64)
  }

  lemma ApplyAdvances(c: Context, v: Vfs, op: Op)
    requires c.generation < U64
    ensures Advances(c, Apply(c, v, op))
  {}

  lemma HooksAdvance(c: Context, v: Vfs, i: Inode, format: Format, dir: Inode, name: string, superblock: nat)
    ensures Advances(c, InitSecurity(c, v, i, format, dir, name).0)
    ensures Advances(c, PostCreateTmpfile(c, v, i, format, superblock))
  {}

  /** Contexts keep their number; each advances; files keep theirs unless resumed. */
  predicate Progress(s: State, r: State) {
    && |s.contexts| <= |r.contexts|
    && (forall c :: 0 <= c < |s.contexts| ==> Advances(s.contexts[c], r.contexts[c]))
    && |s.files| <= |r.files|
  }

  predicate GenerationsFit(s: State) {
    forall c :: 0 <= c < |s.contexts| ==> s.contexts[c].generation < U64
  }

  lemma HoldersProgress(s: State, x: Action)
    requires GenerationsFit(s)
    ensures x.Begin? || x.Get? || x.Put? ==> Progress(s, Owners(s, x)) && GenerationsFit(Owners(s, x))
    ensures
      (x.EnterAttach? || x.EnterReference? || x.EnterPublish? || x.LeaveDetach? || x.LeaveRelease? || x.LeaveDrop?) ==>
              Progress(s, EnterLeave(s, x)) && GenerationsFit(EnterLeave(s, x))
  {}

  lemma FilesProgress(s: State, x: Action)
    requires GenerationsFit(s) && (x.Open? || x.Resume? || x.Release? || x.Adopt?)
    ensures Progress(s, Files(s, x)) && GenerationsFit(Files(s, x))
  {
    hide FileAllowed;
    hide Resumable;
    hide StagingPath;
  }

  lemma CreationProgress(s: State, x: Action)
    requires GenerationsFit(s) && (x.InitHook? || x.TmpfileHook? || x.Instantiate?)
    ensures Progress(s, Creation(s, x)) && GenerationsFit(Creation(s, x))
  {
    hide InitSecurity;
    hide PostCreateTmpfile;
    if Owned(s, x.t) {
      var c := s.contexts[s.tasks[x.t].ctx.value];
      if x.InitHook? {
        HooksAdvance(c, s.vfs, x.i, x.format, x.dir, x.name, 0);
      } else if x.TmpfileHook? {
        HooksAdvance(c, s.vfs, x.i, x.format, 0, "", x.superblock);
      }
    }
  }

  lemma StepProgress(s: State, x: Action)
    requires GenerationsFit(s)
    ensures Progress(s, Step(s, x)) && GenerationsFit(Step(s, x))
  {
    hide Apply;
    hide Owners;
    hide EnterLeave;
    hide Files;
    hide Creation;
    HoldersProgress(s, x);
    if x.Open? || x.Resume? || x.Release? || x.Adopt? {
      FilesProgress(s, x);
    } else if x.InitHook? || x.TmpfileHook? || x.Instantiate? {
      CreationProgress(s, x);
    } else if x.Operate? && Owned(s, x.t) {
      ApplyAdvances(s.contexts[s.tasks[x.t].ctx.value], s.vfs, x.op);
    }
  }

  /** A bound file carries a generation its context has reached, and while that
      generation is armed it carries its phase. */
  predicate FileFits(s: State, f: File) {
    f.ctx.Some? && f.ctx.value < |s.contexts| ==>
      var c := s.contexts[f.ctx.value];
      && f.generation <= c.generation
      && (f.generation == c.generation && !c.armed.phase.NoPhase? ==> f.stamped == c.armed.phase)
  }

  predicate Stamped(s: State) {
    GenerationsFit(s) && forall f :: 0 <= f < |s.files| ==> FileFits(s, s.files[f])
  }

  lemma FitsAfter(s: State, r: State, f: File)
    requires Progress(s, r) && FileFits(s, f) && (f.ctx.Some? ==> f.ctx.value < |s.contexts|)
    ensures FileFits(r, f)
  {}

  /** What a step does to the file in place `f`. */
  predicate FileMoved(s: State, r: State, x: Action, f: nat)
    requires f < |s.files| <= |r.files|
  {
    || r.files[f] == s.files[f]
    || r.files[f].ctx.None?
    || (&& x.Resume? && x.f == f
        && s.files[f].ctx == r.files[f].ctx == CurrentOf(s, x.t)
        && r.files[f].ctx.value < |r.contexts|
        && r.contexts[r.files[f].ctx.value].armed.phase == r.files[f].stamped
        && r.files[f].generation == r.contexts[r.files[f].ctx.value].generation)
  }

  lemma StepMovesFiles(s: State, x: Action, f: nat)
    requires f < |s.files| && GenerationsFit(s)
    ensures |s.files| <= |Step(s, x).files| && FileMoved(s, Step(s, x), x, f)
  {
    hide Apply;
    hide InitSecurity;
    hide PostCreateTmpfile;
    hide FileAllowed;
    hide StagingPath;
  }

  lemma NewFileFits(s: State, x: Action, f: nat)
    requires GenerationsFit(s) && |s.files| <= f < |Step(s, x).files|
    ensures FileFits(Step(s, x), Step(s, x).files[f])
  {
    hide Apply;
    hide InitSecurity;
    hide PostCreateTmpfile;
    hide FileAllowed;
    hide StagingPath;
    hide Resumable;
  }

  lemma StepStamped(s: State, x: Action)
    requires Sane(s) && Stamped(s)
    ensures Stamped(Step(s, x))
  {
    hide Step;
    hide Balanced;
    hide ArmedIsCarried;
    hide Advances;
    var r := Step(s, x);
    StepProgress(s, x);
    forall f | 0 <= f < |r.files| ensures FileFits(r, r.files[f]) {
      if f < |s.files| {
        StepMovesFiles(s, x, f);
        FitsAfter(s, r, s.files[f]);
      } else {
        NewFileFits(s, x, f);
      }
    }
  }

  lemma {:induction false} AlwaysStamped(n: nat, v: Vfs, xs: seq<Action>)
    ensures Stamped(Execute(Init(n, v), xs))
  {
    hide Step;
    if xs != [] {
      AlwaysStamped(n, v, xs[..|xs| - 1]);
      AlwaysSane(n, v, xs[..|xs| - 1]);
      StepStamped(Execute(Init(n, v), xs[..|xs| - 1]), xs[|xs| - 1]);
    }
  }

  // ----- what is admitted -----

  /** Some check of file `f` by task `t` says yes. */
  ghost predicate Admitted(s: State, t: nat, f: File) {
    && f.ctx.Some? && f.ctx.value < |s.contexts|
    && var id := f.ctx.value;
       var c := s.contexts[id];
       || FileReopen(c, id, CurrentOf(s, t), s.vfs, f).Allow?
       || (exists mask :: FilePermission(c, id, CurrentOf(s, t), s.vfs, f, mask).Allow?)
       || (exists write :: FileMetadata(c, id, CurrentOf(s, t), s.vfs, f, write).Allow?)
  }

  lemma AdmittedIsArmed(s: State, t: nat, f: File)
    requires Admitted(s, t, f)
    ensures CurrentOf(s, t) == f.ctx
    ensures !s.contexts[f.ctx.value].armed.phase.NoPhase?
    ensures f.generation == s.contexts[f.ctx.value].generation
  {}

  /** An internal file is admitted only for a task that carries its context, and
      only while the phase it was opened in, or resumed into, is still armed. */
  lemma AdmittedOnlyInItsPhase(n: nat, v: Vfs, xs: seq<Action>, t: nat, f: nat)
    requires
      var s := Execute(Init(n, v), xs);
      f < |s.files| && Admitted(s, t, s.files[f])
    ensures
      var s := Execute(Init(n, v), xs);
      var file := s.files[f];
      var c := s.contexts[file.ctx.value];
      && t < |s.tasks| && s.tasks[t] == Task(file.ctx, Calm) && c.hold.attached
      && !c.armed.phase.NoPhase? && c.armed.phase == file.stamped && c.generation == file.generation
  {
    var s := Execute(Init(n, v), xs);
    AlwaysSane(n, v, xs);
    AlwaysStamped(n, v, xs);
    AdmittedIsArmed(s, t, s.files[f]);
    assert FileFits(s, s.files[f]);
    assert TaskSane(s.tasks[t], |s.contexts|);
    AttachedOnce(n, v, xs, s.files[f].ctx.value, t, t);
  }

  /** The phase file `f` was opened in is over. */
  predicate Sealed(s: State, f: nat) {
    && f < |s.files| && s.files[f].ctx.Some? && s.files[f].ctx.value < |s.contexts|
    && var c := s.contexts[s.files[f].ctx.value];
       c.armed.phase.NoPhase? || s.files[f].generation < c.generation
  }

  predicate Unbound(s: State, f: nat) {
    f < |s.files| && s.files[f].ctx.None?
  }

  lemma StaysSealed(s: State, x: Action, f: nat)
    requires Stamped(s) && (Sealed(s, f) || Unbound(s, f))
    requires !(x.Resume? && x.f == f)
    ensures Sealed(Step(s, x), f) || Unbound(Step(s, x), f)
  {
    hide Step;
    StepProgress(s, x);
    StepMovesFiles(s, x, f);
    if Sealed(s, f) {
      assert FileFits(s, s.files[f]);
      assert Advances(s.contexts[s.files[f].ctx.value], Step(s, x).contexts[s.files[f].ctx.value]);
    }
  }

  /** Once its phase has ended, a file is never admitted again by anyone, whatever
      happens, unless it is itself resumed. */
  lemma {:induction false} NeverAdmittedAgain(n: nat, v: Vfs, xs: seq<Action>, ys: seq<Action>, t: nat, f: nat)
    requires Sealed(Execute(Init(n, v), xs), f)
    requires forall k :: 0 <= k < |ys| ==> !(ys[k].Resume? && ys[k].f == f)
    ensures
      var s := Execute(Init(n, v), xs + ys);
      f < |s.files| && !Admitted(s, t, s.files[f])
  {
    SealedRun(n, v, xs, ys, f);
    var s := Execute(Init(n, v), xs + ys);
    if Admitted(s, t, s.files[f]) {
      AdmittedIsArmed(s, t, s.files[f]);
    }
  }

  lemma {:induction false} SealedRun(n: nat, v: Vfs, xs: seq<Action>, ys: seq<Action>, f: nat)
    requires Sealed(Execute(Init(n, v), xs), f)
    requires forall k :: 0 <= k < |ys| ==> !(ys[k].Resume? && ys[k].f == f)
    ensures var s := Execute(Init(n, v), xs + ys); Sealed(s, f) || Unbound(s, f)
    decreases |ys|
  {
    hide Step;
    if ys == [] {
      assert xs + ys == xs;
    } else {
      var zs := ys[..|ys| - 1];
      SealedRun(n, v, xs, zs, f);
      assert (xs + ys)[..|xs + ys| - 1] == xs + zs;
      AlwaysStamped(n, v, xs + zs);
      StaysSealed(Execute(Init(n, v), xs + zs), ys[|ys| - 1], f);
    }
  }

  /** Resuming re-admits nothing but a read-only handle on the provider directory
      that this context itself had opened, into a source-read phase. */
  lemma ResumeIsNarrow(s: State, t: nat, f: nat)
    requires f < |s.files| && Step(s, Resume(t, f)).files[f] != s.files[f]
    ensures Owned(s, t)
    ensures
      var file, c := s.files[f], s.contexts[s.tasks[t].ctx.value];
      && file.ctx == s.tasks[t].ctx && c.armed.phase.SourceRead?
      && file.path == c.provider.path && file.inode == c.provider.inode && IsDirectory(s.vfs, file.inode)
      && file.reading && !file.writing
      && Step(s, Resume(t, f)).files[f] == file.(generation := c.generation, stamped := SourceRead)
  {}
}
