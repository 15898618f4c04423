/** Two concrete runs.  In the first a stacked confirmation registers an inode that the
    context did not make, and copy-up then admits its deletion: after the create, the
    environment puts another inode behind the created name.  In the second a clone of
    the capability xattr admits a write to the provider. */
module CopyUpExample {
  import opened Widths
  import opened CopyUp
  import opened CopyUpMachine
  import opened CopyUpAttachment
  import opened CopyUpLock
  import opened CopyUpObjects

  const PARENT := Path(0, 0)
  const PROVIDER := Path(0, 1)
  const NAME := Path(0, 2)
  const FORMATS := map[10 := Directory, 11 := Regular, 13 := Regular]
  const BEFORE := Vfs(map[0 := 10, 1 := 11], map[1 := 0, 2 := 0], map[], FORMATS, map[])
  const AFTER := Vfs(map[0 := 10, 1 := 11, 2 := 13], map[1 := 0, 2 := 0], map[], FORMATS, map[])
  const SD: Bytes := [1]

  function Entered(capability: Option<Bytes>): State {
    var s1 := Step(Init(1, BEFORE), Begin(BEFORE, PROVIDER, SD, capability, 0));
    var s2 := Step(s1, EnterAttach(0, 0));
    Step(Step(s2, EnterReference(0)), EnterPublish(0))
  }

  lemma EnteredIs(capability: Option<Bytes>)
    ensures
      var s := Entered(capability);
      && s.vfs == BEFORE && s.tasks == [Task(Some(0), Calm)] && 12 !in s.born && 14 !in s.born
      && s.contexts == [Alloc(PROVIDER, 11, SD, capability, 0).(hold := Holders(2, true, 1))]
  {
    var s0 := Init(1, BEFORE);
    assert BEFORE.inodes[1] == 11;
    var s1 := Step(s0, Begin(BEFORE, PROVIDER, SD, capability, 0));
    assert s1.contexts == [Alloc(PROVIDER, 11, SD, capability, 0)];
    assert Entering(s1.tasks, 0) == 0;
    var s2 := Step(s1, EnterAttach(0, 0));
    var s3 := Step(s2, EnterReference(0));
    var s4 := Step(s3, EnterPublish(0));
  }

  predicate OneTask(s: State) {
    s.tasks == [Task(Some(0), Calm)] && |s.contexts| == 1 && s.contexts[0].hold.attached
  }

  lemma OperateOne(s: State, op: Op)
    requires OneTask(s)
    ensures
      var r := Step(s, Operate(0, op));
      OneTask(r) && r == s.(contexts := [Apply(s.contexts[0], s.vfs, op)])
  {
    hide Apply;
    ApplyKeepsHolders(s.contexts[0], s.vfs, op);
  }

  const CREATE := DoCreate(BEFORE, PROVIDER, None, PARENT, Some(2), Regular, false)

  /** The context's side of the stacked create: armed, admitted, recorded, stamped. */
  function Made1(c: Context): Context {
    var c5 := Apply(c, BEFORE, CREATE);
    var c6 := Apply(c5, BEFORE, DoCreateHook(10, 2, Regular));
    var c7 := Apply(c6, BEFORE, DoDentryCreate(2, Regular));
    InitSecurity(c7, BEFORE, 14, Regular, 99, "").0
  }

  predicate Confirmable(c: Context) {
    && c.generation == 1 && c.pending.None? && c.created == [] && c.staging.None?
    && c.armed.phase.Create? && !c.armed.anonymous && c.armed.createSeen && c.armed.initSeen
    && c.armed.stackedSeen && c.armed.stackedSd && c.armed.dentry == Some(2) && c.armed.format.Regular?
    && c.armed.parent == Some(Pin(PARENT, 10))
  }

  lemma MadeIs(c: Context)
    requires c == Alloc(PROVIDER, 11, SD, None, 0).(hold := c.hold)
    ensures Confirmable(Made1(c)) && Made1(c).past.made == map[]
  {
    var c5 := Apply(c, BEFORE, CREATE);
    assert CreateArguments(BEFORE, PROVIDER, PARENT, Some(2), Regular, false);
    assert c5.generation == 1 && c5.armed.sd == SD && c5.armed.parent == Some(Pin(PARENT, 10));
    assert AllowsCreate(c5, BEFORE, 10, 2, Regular);
  }

  /** The same as a run of the machine, up to the instantiation of inode 12. */
  function Created1(): State {
    var s5 := Step(Entered(None), Operate(0, CREATE));
    var s6 := Step(s5, Operate(0, DoCreateHook(10, 2, Regular)));
    var s7 := Step(s6, Operate(0, DoDentryCreate(2, Regular)));
    var s8 := Step(s7, InitHook(0, 14, Regular, 99, ""));
    Step(s8, Instantiate(0, 2, 12))
  }

  lemma CreatedIs()
    ensures OneTask(Created1()) && Confirmable(Created1().contexts[0]) &&
            Created1().contexts[0].past.made == map[12 := 1]
    ensures InodeOf(Created1().vfs, 2) == Some(12)
  {
    EnteredIs(None);
    var s4 := Entered(None);
    var c4 := s4.contexts[0];
    MadeIs(c4);
    OperateOne(s4, CREATE);
    var s5 := Step(s4, Operate(0, CREATE));
    OperateOne(s5, DoCreateHook(10, 2, Regular));
    var s6 := Step(s5, Operate(0, DoCreateHook(10, 2, Regular)));
    OperateOne(s6, DoDentryCreate(2, Regular));
    var s7 := Step(s6, Operate(0, DoDentryCreate(2, Regular)));
    hide Apply;
    hide Entered;
    hide Made1;
    HooksKeepHolders(s7.contexts[0], BEFORE, 14, Regular, 99, "", 0);
    InstantiateIs(s7);
  }

  lemma InstantiateIs(s: State)
    requires OneTask(s) && s.vfs == BEFORE && 12 !in s.born && 14 !in s.born
    requires
      var c := InitSecurity(s.contexts[0], BEFORE, 14, Regular, 99, "").0;
      Confirmable(c) && c.past.made == map[] && c.hold == s.contexts[0].hold
    ensures
      var r := Step(Step(s, InitHook(0, 14, Regular, 99, "")), Instantiate(0, 2, 12));
      && OneTask(r) && Confirmable(r.contexts[0]) && r.contexts[0].past.made == map[12 := 1]
      && InodeOf(r.vfs, 2) == Some(12)
  {
    hide InitSecurity;
    var s8 := Step(s, InitHook(0, 14, Regular, 99, ""));
    assert s8.contexts == [InitSecurity(s.contexts[0], BEFORE, 14, Regular, 99, "").0];
    assert OneTask(s8);
  }

  /** Inode 13 was not made by the context, yet its deletion is admitted. */
  lemma DeletionOfForeignInode()
    ensures
      var s10 := Step(Created1(), Environment(AFTER));
      var s11 := Step(s10, Operate(0, DoConfirm(NAME)));
      var s12 := Step(s11, Operate(0, DoEnd));
      var s13 := Step(s12, Operate(0, DoCleanup(AFTER, PARENT, 2, false)));
      && OneTask(s10) && OneTask(s13)
      && !LockKept(Created1(), Environment(AFTER))
      && AllowsUnlink(s13.contexts[0], s13.vfs, 10, 2, false)
      && InodeOf(s13.vfs, 2) == Some(13)
      && 13 !in s13.contexts[0].past.made
      && !s13.contexts[0].armed.orphan
  {
    CreatedIs();
    var s9 := Created1();
    var s10 := Step(s9, Environment(AFTER));
    hide Created1;
    OperateOne(s10, DoConfirm(NAME));
    var s11 := Step(s10, Operate(0, DoConfirm(NAME)));
    OperateOne(s11, DoEnd);
    var s12 := Step(s11, Operate(0, DoEnd));
    OperateOne(s12, DoCleanup(AFTER, PARENT, 2, false));
    hide Step;
    assert Awaiting(s9.contexts[0]);
    DeletableContext(s10.contexts[0]);
  }

  lemma DeletableContext(c: Context)
    requires Confirmable(c) && c.past.made == map[12 := 1]
    ensures
      var d := Apply(Apply(Apply(c, AFTER, DoConfirm(NAME)), AFTER, DoEnd), AFTER, DoCleanup(AFTER, PARENT, 2, false));
      && !ConfirmsOwn(c, AFTER, DoConfirm(NAME))
      && AllowsUnlink(d, AFTER, 10, 2, false)
      && 13 !in d.past.made && !d.armed.orphan
  {
    assert ConfirmsStacked(c, AFTER, NAME);
    ForeignInodeBecomesDeletable(c, AFTER, NAME);
  }

  // ----- the capability xattr -----

  const CAPABILITY: Bytes := [7]
  const SHOWN := Vfs(map[0 := 10, 1 := 11, 2 := 12], map[1 := 0, 2 := 0], map[], FORMATS[12 := Regular], map[])

  /** An ordinary create of inode 12, which the environment then shows under its name. */
  function Named(c: Context): Context {
    var c5 := Apply(c, BEFORE, CREATE);
    var c6 := Apply(c5, BEFORE, DoCreateHook(10, 2, Regular));
    InitSecurity(c6, BEFORE, 12, Regular, 10, "").0
  }

  /** The created inode is bound as staging and a clone of the capability has begun. */
  function Cloning(c: Context): Context {
    var c9 := Apply(Apply(c, SHOWN, DoEnd), SHOWN, DoBind(SHOWN, NAME));
    Apply(Apply(c9, SHOWN, DoPopulate), SHOWN, DoClone(CAPABILITY, Some(CAPABILITY), 0))
  }

  lemma NamedIs(c: Context)
    requires c == Alloc(PROVIDER, 11, SD, Some(CAPABILITY), 0).(hold := c.hold)
    ensures
      var d := Named(c);
      && d.pending == Some(12) && d.staging.None? && d.generation == 1
      && d.capability == Some(CAPABILITY) && d.userNs == 0
      && d.provider == c.provider
  {
    var c5 := Apply(c, BEFORE, CREATE);
    assert CreateArguments(BEFORE, PROVIDER, PARENT, Some(2), Regular, false);
    assert c5.generation == 1 && c5.armed.sd == SD && c5.armed.parent == Some(Pin(PARENT, 10));
    assert AllowsCreate(c5, BEFORE, 10, 2, Regular);
  }

  lemma CloningIs(c: Context)
    requires c.pending == Some(12) && c.staging.None? && c.generation == 1
    requires c.capability == Some(CAPABILITY) && c.userNs == 0
    ensures
      var d := Cloning(c);
      && !AllowsCapabilitySetxattr(d, SHOWN, 1, 0) && AllowsCapabilitySetxattr(d, SHOWN, 2, 0)
      && AllowsCapabilitySetxattr(Apply(d, SHOWN, DoCapabilityHook(2, 0)), SHOWN, 1, 0)
  {
    var c9 := Apply(Apply(c, SHOWN, DoEnd), SHOWN, DoBind(SHOWN, NAME));
    assert c9.staging == Some(Staging(NAME, 12, Pin(PARENT, 10)));
    assert StagingValid(c9, SHOWN);
  }

  function Admitted2(): State {
    Step(Step(Entered(Some(CAPABILITY)), Operate(0, CREATE)), Operate(0, DoCreateHook(10, 2, Regular)))
  }

  lemma Admitted2Is()
    ensures
      var s, c := Admitted2(), Alloc(PROVIDER, 11, SD, Some(CAPABILITY), 0).(hold := Holders(2, true, 1));
      && OneTask(s) && s.vfs == BEFORE && 12 !in s.born
      && s.contexts[0] == Apply(Apply(c, BEFORE, CREATE), BEFORE, DoCreateHook(10, 2, Regular))
  {
    hide Apply;
    EnteredIs(Some(CAPABILITY));
    var s4 := Entered(Some(CAPABILITY));
    hide Entered;
    OperateOne(s4, CREATE);
    OperateOne(Step(s4, Operate(0, CREATE)), DoCreateHook(10, 2, Regular));
    hide Step;
  }

  lemma InitOne(s: State)
    requires OneTask(s) && s.vfs == BEFORE && 12 !in s.born
    ensures
      var r := Step(Step(s, InitHook(0, 12, Regular, 10, "")), Environment(SHOWN));
      && OneTask(r) && r.vfs == SHOWN
      && r.contexts[0] == InitSecurity(s.contexts[0], BEFORE, 12, Regular, 10, "").0
  {
    HooksKeepHolders(s.contexts[0], BEFORE, 12, Regular, 10, "", 0);
    hide InitSecurity;
    var s7 := Step(s, InitHook(0, 12, Regular, 10, ""));
    assert s7.contexts == [InitSecurity(s.contexts[0], BEFORE, 12, Regular, 10, "").0];
  }

  function Created2(): State {
    Step(Step(Admitted2(), InitHook(0, 12, Regular, 10, "")), Environment(SHOWN))
  }

  lemma Created2Is()
    ensures
      var s, c := Created2(), Alloc(PROVIDER, 11, SD, Some(CAPABILITY), 0).(hold := Holders(2, true, 1));
      OneTask(s) && s.vfs == SHOWN && s.contexts[0] == Named(c)
  {
    hide Apply;
    Admitted2Is();
    InitOne(Admitted2());
    hide Admitted2;
    hide Step;
    hide InitSecurity;
  }

  function Cloned(): State {
    var s9 := Step(Step(Created2(), Operate(0, DoEnd)), Operate(0, DoBind(SHOWN, NAME)));
    Step(Step(s9, Operate(0, DoPopulate)), Operate(0, DoClone(CAPABILITY, Some(CAPABILITY), 0)))
  }

  lemma OperateTwo(s: State, first: Op, second: Op)
    requires OneTask(s)
    ensures
      var r := Step(Step(s, Operate(0, first)), Operate(0, second));
      OneTask(r) && r.vfs == s.vfs && r.contexts[0] == Apply(Apply(s.contexts[0], s.vfs, first), s.vfs, second)
  {
    hide Apply;
    hide Step;
    OperateOne(s, first);
    OperateOne(Step(s, Operate(0, first)), second);
  }

  lemma OperateFour(s: State, first: Op, second: Op, third: Op, fourth: Op)
    requires OneTask(s)
    ensures
      var r := Step(Step(s, Operate(0, first)), Operate(0, second));
      var q := Step(Step(r, Operate(0, third)), Operate(0, fourth));
      var c := Apply(Apply(s.contexts[0], s.vfs, first), s.vfs, second);
      OneTask(q) && q.vfs == s.vfs && q.contexts[0] == Apply(Apply(c, s.vfs, third), s.vfs, fourth)
  {
    hide Apply;
    hide Step;
    OperateTwo(s, first, second);
    OperateTwo(Step(Step(s, Operate(0, first)), Operate(0, second)), third, fourth);
  }

  lemma ClonedIs()
    requires OneTask(Created2()) && Created2().vfs == SHOWN
    ensures OneTask(Cloned()) && Cloned().vfs == SHOWN
    ensures Cloned().contexts[0] == Cloning(Created2().contexts[0])
  {
    hide Apply;
    hide Step;
    hide Created2;
    hide OneTask;
    OperateFour(Created2(), DoEnd, DoBind(SHOWN, NAME), DoPopulate, DoClone(CAPABILITY, Some(CAPABILITY), 0));
    OneContext(Created2());
    OneContext(Cloned());
  }

  lemma OneContext(s: State)
    requires OneTask(s)
    ensures |s.contexts| == 1
  {}

  /** The provider's dentry is refused until the staging dentry was admitted once; then
      a capability write to the provider is admitted. */
  lemma CapabilityWriteToProvider()
    ensures
      var s := Cloned();
      var r := Step(s, Operate(0, DoCapabilityHook(2, 0)));
      && OneTask(s) && OneTask(r)
      && Shows(r.vfs, 1, 11) && r.contexts[0].provider == Pin(PROVIDER, 11)
      && !AllowsCapabilitySetxattr(s.contexts[0], s.vfs, 1, 0)
      && AllowsCapabilitySetxattr(r.contexts[0], r.vfs, 1, 0)
  {
    Created2Is();
    ClonedIs();
    var c := Alloc(PROVIDER, 11, SD, Some(CAPABILITY), 0).(hold := Holders(2, true, 1));
    NamedIs(c);
    CloningIs(Named(c));
    ProviderStays(Named(c));
    hide Cloned;
    hide Created2;
    hide Named;
    hide Cloning;
    OperateOne(Cloned(), DoCapabilityHook(2, 0));
    hide Step;
    hide Apply;
  }

  lemma ProviderStays(c: Context)
    ensures Apply(Cloning(c), SHOWN, DoCapabilityHook(2, 0)).provider == c.provider
  {
    hide StagingValid;
    hide AllowsCapabilitySetxattr;
  }
}
