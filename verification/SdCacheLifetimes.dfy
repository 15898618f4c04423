/** No thread ever looks at a freed cache entry, or at another entry that was
    later allocated at the address it remembers: every pin, every candidate inside
    an RCU read-side section and every window still sees the entry it started with. */
module SdCacheLifetimes {
  import opened Widths
  import opened Descriptors
  import opened SdCacheMachine
  import opened SdCacheReferences

  predicate Sees(h: Heap, a: Addr, e: Entry) {
    a in h && h[a].entry == e
  }

  /** A grace period that covers reader `i` still separates `a` from its release. */
  ghost predicate Protected(m: Shared, i: nat, a: Addr) {
    || m.slot == Some(a)
    || exists k :: 0 <= k < |m.pending| && m.pending[k].entry == a && i in m.pending[k].readers
  }

  predicate WindowSees(h: Heap, w: Window) {
    && (w.cache.Some? <==> w.entry.Some?)
    && (w.cache.Some? ==> Sees(h, w.cache.value, w.entry.value))
  }

  predicate MadeFor(h: Heap, w: Window, made: Option<Addr>) {
    made.Some? ==> made.value in h && h[made.value].entry.origin == w.origin
  }

  ghost predicate PcSound(m: Shared, i: nat, pc: Pc) {
    match pc
    case Idle | PersistWriting(_) => true
    case InRcu(a, e) => Sees(m.heap, a, e) && Protected(m, i, a)
    case Probed(a, e) => Sees(m.heap, a, e)
    case Holding(a, e) => Sees(m.heap, a, e)
    case Claimed(a, e) => Sees(m.heap, a, e)
    case Promoting(a, bytes) => Sees(m.heap, a, Entry(Valid, FromXattr, bytes, 0, Written, 0))
    case Reading(w) => WindowSees(m.heap, w)
    case Synthesizing(w, _) => WindowSees(m.heap, w)
    case ReadBack(w, made) =>
      && WindowSees(m.heap, w)
      && MadeFor(m.heap, w, made)
      && (made.Some? ==> m.heap[made.value].entry.ticket == w.tickets)
    case SynthBack(w, made) => WindowSees(m.heap, w) && MadeFor(m.heap, w, made)
  }

  ghost predicate Alive(s: State) {
    && Balanced(s, multiset{})
    && forall i :: 0 <= i < |s.threads| ==> PcSound(s.m, i, s.threads[i].pc)
  }

  // ----- heaps -----

  /** Entries are freed, or keep their content. */
  predicate Derived(h: Heap, h': Heap) {
    forall a :: a in h' ==> a in h && h[a].entry == h'[a].entry
  }

  /** As `Derived`, but entries may also have been allocated. */
  predicate Evolved(h: Heap, h': Heap) {
    forall a :: a in h && a in h' ==> h[a].entry == h'[a].entry
  }

  lemma AddressInHeap(s: State, i: nat, a: Addr)
    requires Balanced(s, multiset{}) && i < |s.threads|
    requires a in PinsOf(s.threads[i].pc)
    ensures a in s.m.heap
  {
    PinsAtLeast(s.threads, i, a);
    InHeap(s, multiset{}, a);
  }

  lemma SlotInHeap(s: State)
    requires Balanced(s, multiset{}) && s.m.slot.Some?
    ensures s.m.slot.value in s.m.heap
  {
    assert One(s.m.slot)[s.m.slot.value] == 1;
    InHeap(s, multiset{}, s.m.slot.value);
  }

  lemma ProtectedInHeap(s: State, i: nat, a: Addr)
    requires Balanced(s, multiset{}) && Protected(s.m, i, a)
    ensures a in s.m.heap
  {
    hide Balanced;
    if s.m.slot == Some(a) {
      SlotInHeap(s);
    } else {
      var k :| 0 <= k < |s.m.pending| && s.m.pending[k].entry == a && i in s.m.pending[k].readers;
      WaitingAtLeast(s.m.pending, k);
      InHeap(s, multiset{}, a);
    }
  }

  /** A pinned entry is still there, and unchanged. */
  lemma StillSeen(s: State, r: State, i: nat, a: Addr, e: Entry)
    requires Balanced(r, multiset{}) && i < |r.threads| && a in PinsOf(r.threads[i].pc)
    requires Sees(s.m.heap, a, e) && Evolved(s.m.heap, r.m.heap)
    ensures Sees(r.m.heap, a, e)
  {
    hide Balanced;
    hide PinsOf;
    AddressInHeap(r, i, a);
  }

  lemma EvolvedSees(h: Heap, h': Heap, a: Addr, e: Entry)
    requires Sees(h, a, e) && Evolved(h, h') && a in h'
    ensures Sees(h', a, e)
  {}

  lemma WindowStillSeen(s: State, r: State, i: nat, w: Window)
    requires Balanced(r, multiset{}) && i < |r.threads| && One(w.cache) <= PinsOf(r.threads[i].pc)
    requires WindowSees(s.m.heap, w) && Evolved(s.m.heap, r.m.heap)
    ensures WindowSees(r.m.heap, w)
  {
    hide Balanced;
    hide PinsOf;
    hide Evolved;
    if w.cache.Some? {
      assert w.cache.value in One(w.cache);
      StillSeen(s, r, i, w.cache.value, w.entry.value);
    }
  }

  lemma MadeStillSeen(s: State, r: State, i: nat, made: Option<Addr>)
    requires Balanced(r, multiset{}) && i < |r.threads| && One(made) <= PinsOf(r.threads[i].pc)
    requires made.Some? ==> made.value in s.m.heap
    requires Evolved(s.m.heap, r.m.heap)
    ensures made.Some? ==> made.value in r.m.heap && r.m.heap[made.value].entry == s.m.heap[made.value].entry
  {
    hide Balanced;
    hide PinsOf;
    hide Evolved;
    if made.Some? {
      assert made.value in One(made);
      StillSeen(s, r, i, made.value, s.m.heap[made.value].entry);
    }
  }

  /** A program counter pins every address it remembers outside an RCU section. */
  lemma PinsCover(pc: Pc)
    ensures
      match pc
      case Probed(a, _) => a in PinsOf(pc)
      case Holding(a, _) => a in PinsOf(pc)
      case Claimed(a, _) => a in PinsOf(pc)
      case Promoting(a, _) => a in PinsOf(pc)
      case Reading(w) => One(w.cache) <= PinsOf(pc)
      case Synthesizing(w, _) => One(w.cache) <= PinsOf(pc)
      case ReadBack(w, made) => One(w.cache) <= PinsOf(pc) && One(made) <= PinsOf(pc)
      case SynthBack(w, made) => One(w.cache) <= PinsOf(pc) && One(made) <= PinsOf(pc)
      case _ => true
  {}

  /** A thread that does not move keeps seeing what it saw. */
  lemma Undisturbed(s: State, r: State, i: nat)
    requires i < |s.threads| && i < |r.threads| && r.threads[i].pc == s.threads[i].pc
    requires PcSound(s.m, i, s.threads[i].pc)
    requires Balanced(r, multiset{}) && Evolved(s.m.heap, r.m.heap)
    requires s.threads[i].pc.InRcu? ==> Protected(r.m, i, s.threads[i].pc.a)
    ensures PcSound(r.m, i, r.threads[i].pc)
  {
    hide Balanced;
    hide Protected;
    hide WindowSees;
    hide PinsOf;
    hide Evolved;
    hide One;
    var pc := r.threads[i].pc;
    PinsCover(pc);
    match pc {
      case InRcu(a, e) => ProtectedInHeap(r, i, a); EvolvedSees(s.m.heap, r.m.heap, a, e);
      case Probed(a, e) => StillSeen(s, r, i, a, e);
      case Holding(a, e) => StillSeen(s, r, i, a, e);
      case Claimed(a, e) => StillSeen(s, r, i, a, e);
      case Promoting(a, bytes) => StillSeen(s, r, i, a, Entry(Valid, FromXattr, bytes, 0, Written, 0));
      case Reading(w) => WindowStillSeen(s, r, i, w);
      case Synthesizing(w, _) => WindowStillSeen(s, r, i, w);
      case ReadBack(w, made) => WindowStillSeen(s, r, i, w); MadeStillSeen(s, r, i, made);
      case SynthBack(w, made) => WindowStillSeen(s, r, i, w); MadeStillSeen(s, r, i, made);
      case _ =>
    }
  }

  /** One step from the view of everybody but thread `t`. */
  ghost predicate Quiet(s: State, r: State, t: int) {
    && |r.threads| == |s.threads|
    && (forall i :: 0 <= i < |s.threads| && i != t ==> r.threads[i] == s.threads[i])
    && Evolved(s.m.heap, r.m.heap)
    && (forall i | 0 <= i < |s.threads| && i != t && s.threads[i].pc.InRcu? && Protected(s.m, i, s.threads[i].pc.a) ::
          Protected(r.m, i, s.threads[i].pc.a))
  }

  lemma AliveFrom(s: State, r: State, t: int)
    requires Alive(s) && Balanced(r, multiset{}) && Quiet(s, r, t)
    requires 0 <= t < |r.threads| ==> PcSound(r.m, t, r.threads[t].pc)
    ensures Alive(r)
  {
    hide Balanced;
    forall i | 0 <= i < |r.threads| ensures PcSound(r.m, i, r.threads[i].pc) {
      if i != t {
        assert r.threads[i] == s.threads[i];
        Undisturbed(s, r, i);
      }
    }
  }

  // ----- what a step does to the slot and the queue -----

  /** The slot and the RCU queue stay, or the slot's entry is queued behind
      every reader inside an RCU section. */
  predicate Displaces(s: State, m: Shared) {
    || (m.slot == s.m.slot && m.pending == s.m.pending)
    || (s.m.slot.None? && m.pending == s.m.pending)
    || (s.m.slot.Some? && m.pending == s.m.pending + [Deferred(s.m.slot.value, Readers(s.threads))])
  }

  lemma DisplacedStillProtected(s: State, m: Shared, i: nat, a: Addr)
    requires Displaces(s, m) && i in Readers(s.threads) && Protected(s.m, i, a)
    ensures Protected(m, i, a)
  {
    if !(m.slot == s.m.slot && m.pending == s.m.pending) {
      if s.m.slot == Some(a) {
        assert m.pending[|s.m.pending|] == Deferred(a, Readers(s.threads));
      } else {
        var k :| 0 <= k < |s.m.pending| && s.m.pending[k].entry == a && i in s.m.pending[k].readers;
        assert m.pending[k] == s.m.pending[k];
      }
    }
  }

  lemma QuietWhenDisplacing(s: State, r: State, t: int)
    requires |r.threads| == |s.threads|
    requires forall i :: 0 <= i < |s.threads| && i != t ==> r.threads[i] == s.threads[i]
    requires Evolved(s.m.heap, r.m.heap) && Displaces(s, r.m)
    ensures Quiet(s, r, t)
  {
    forall i | 0 <= i < |s.threads| && i != t && s.threads[i].pc.InRcu? && Protected(s.m, i, s.threads[i].pc.a)
      ensures Protected(r.m, i, s.threads[i].pc.a)
    {
      DisplacedStillProtected(s, r.m, i, s.threads[i].pc.a);
    }
  }

  lemma ReadersUpdate(threads: seq<Thread>, t: nat, th: Thread)
    requires t < |threads| && !threads[t].pc.InRcu? && !th.pc.InRcu?
    ensures Readers(threads[t := th]) == Readers(threads)
  {}

  // ----- the locked sections -----

  /** What a locked section leaves behind, short of the balance. */
  ghost predicate Section(s: State, r: State, t: nat) {
    && |r.threads| == |s.threads|
    && (forall i :: 0 <= i < |s.threads| && i != t ==> r.threads[i] == s.threads[i])
    && Derived(s.m.heap, r.m.heap)
    && Displaces(s, r.m)
  }

  lemma LockedSection(s: State, t: nat, synthesizes: bool)
    requires At(s, t) && s.threads[t].pc.Idle?
    requires s.m.slot.Some? ==> s.m.slot.value in s.m.heap
    ensures
      var r := Locked(s, t, synthesizes);
      Section(s, r, t) && r.m.slot == s.m.slot && r.m.pending == s.m.pending && PcSound(r.m, t, r.threads[t].pc)
  {}

  lemma AfterPopulateSection(s: State, t: nat, a: Addr, synthesizes: bool)
    requires At(s, t) && s.threads[t].pc.Idle?
    ensures
      var r := AfterPopulate(s, t, a, synthesizes);
      Section(s, r, t) && r.m.slot == s.m.slot && r.m.pending == s.m.pending && PcSound(r.m, t, r.threads[t].pc)
  {}

  lemma DropBothDerived(s: State, made: Option<Addr>, cache: Option<Addr>)
    ensures Derived(s.m.heap, DropBoth(s, made, cache).m.heap)
  {}

  /** Closing a window and dropping its references is a section of its own. */
  lemma DropBothSection(s: State, t: nat, w: Window, made: Option<Addr>, kept: Option<Addr>)
    requires At(s, t) && Balanced(s, multiset{}) && !s.threads[t].pc.InRcu?
    requires PinsOf(s.threads[t].pc) == One(made) + One(w.cache) + One(kept)
    ensures
      var r := DropBoth(CloseWindow(s, t, w), made, w.cache);
      && Section(s, r, t)
      && r.m == s.m.(heap := r.m.heap)
      && r.threads[t].pc.Idle?
      && Readers(r.threads) == Readers(s.threads)
      && Balanced(r, One(kept))
  {
    hide Balanced;
    hide PinsOf;
    hide One;
    hide Derived;
    var s1 := CloseWindow(s, t, w);
    Rotate(One(made), One(w.cache), One(kept));
    NoPins();
    SwapThread(s, t, s1.threads[t], multiset{}, One(kept) + One(made) + One(w.cache));
    DropBothRefs(s1, made, w.cache, One(kept));
    DropBothDerived(s1, made, w.cache);
    ReadersUpdate(s.threads, t, s1.threads[t]);
  }

  lemma Rotate(a: multiset<Addr>, b: multiset<Addr>, c: multiset<Addr>)
    ensures multiset{} + (a + b + c) == c + a + b + multiset{}
  {}

  lemma NoPins()
    ensures PinsOf(Idle) == multiset{}
  {}

  lemma SectionExtends(s: State, s1: State, r: State, t: nat)
    requires Section(s, s1, t) && Section(s1, r, t)
    requires r.m.slot == s1.m.slot && r.m.pending == s1.m.pending
    ensures Section(s, r, t)
  {}

  lemma RetrySection(s: State, t: nat, w: Window, made: Option<Addr>, synthesizes: bool)
    requires At(s, t) && Balanced(s, multiset{}) && !s.threads[t].pc.InRcu?
    requires PinsOf(s.threads[t].pc) == One(made) + One(w.cache)
    ensures
      var r := Locked(DropBoth(CloseWindow(s, t, w), made, w.cache), t, synthesizes);
      Section(s, r, t) && PcSound(r.m, t, r.threads[t].pc)
  {
    hide Balanced;
    hide Locked;
    DropBothSection(s, t, w, made, None);
    var s1 := DropBoth(CloseWindow(s, t, w), made, w.cache);
    if s1.m.slot.Some? { SlotInHeap(s1); }
    LockedSection(s1, t, synthesizes);
    SectionExtends(s, s1, Locked(s1, t, synthesizes), t);
  }

  lemma ReuseSection(s: State, t: nat, w: Window, made: Option<Addr>, a: Addr, synthesizes: bool)
    requires At(s, t) && Balanced(s, multiset{}) && !s.threads[t].pc.InRcu?
    requires PinsOf(s.threads[t].pc) == One(made) + One(w.cache)
    ensures
      var r := AfterPopulate(DropBoth(CloseWindow(s, t, w), made, w.cache), t, a, synthesizes);
      Section(s, r, t) && PcSound(r.m, t, r.threads[t].pc)
  {
    hide Balanced;
    hide AfterPopulate;
    DropBothSection(s, t, w, made, None);
    var s1 := DropBoth(CloseWindow(s, t, w), made, w.cache);
    AfterPopulateSection(s1, t, a, synthesizes);
    SectionExtends(s, s1, AfterPopulate(s1, t, a, synthesizes), t);
  }

  lemma PublishSection(s: State, t: nat, w: Window, a: Addr, synthesizes: bool)
    requires At(s, t) && !s.threads[t].pc.InRcu?
    ensures
      var r := AfterPopulate(DropBoth(PublishRead(CloseWindow(s, t, w), w, a), None, w.cache), t, a, synthesizes);
      Section(s, r, t) && PcSound(r.m, t, r.threads[t].pc)
  {
    hide AfterPopulate;
    var s1 := CloseWindow(s, t, w);
    ReadersUpdate(s.threads, t, s1.threads[t]);
    var s2 := DropBoth(PublishRead(s1, w, a), None, w.cache);
    DropBothDerived(PublishRead(s1, w, a), None, w.cache);
    assert Section(s, s2, t);
    AfterPopulateSection(s2, t, a, synthesizes);
    SectionExtends(s, s2, AfterPopulate(s2, t, a, synthesizes), t);
  }

  lemma FinishReadSection(s: State, t: nat, w: Window, made: Option<Addr>, synthesizes: bool)
    requires Alive(s) && At(s, t) && s.threads[t].pc == ReadBack(w, made)
    ensures
      var r := FinishRead(s, t, w, made, synthesizes);
      Section(s, r, t) && PcSound(r.m, t, r.threads[t].pc)
  {
    hide Balanced;
    hide Locked;
    hide AfterPopulate;
    hide DropBoth;
    hide CloseWindow;
    hide PublishRead;
    assert PinsOf(s.threads[t].pc) == One(made) + One(w.cache);
    assert PinsOf(s.threads[t].pc) == One(made) + One(w.cache) + One(None);
    if ReadOutdated(s, w) {
      RetrySection(s, t, w, made, synthesizes);
    } else if made.None? {
      DropBothSection(s, t, w, None, None);
    } else if ReusePublished(s, w) {
      ReuseSection(s, t, w, made, s.m.slot.value, synthesizes);
    } else {
      PublishSection(s, t, w, made.value, synthesizes);
    }
  }

  lemma InstallSection(s: State, t: nat, a: Addr)
    requires At(s, t) && s.threads[t].pc.Idle?
    ensures
      var s3 := s.(m := Replace(s.m, Some(a), Readers(s.threads)));
      var r := if a !in s3.m.heap then s3
               else SetPc(SetHeap(s3, Ref(s3.m.heap, a)), t, Holding(a, s3.m.heap[a].entry));
      Section(s, r, t) && PcSound(r.m, t, r.threads[t].pc)
  {
    hide Wrap;
  }

  lemma SectionThen(s: State, s1: State, r: State, t: nat)
    requires Section(s, s1, t) && s1.m.slot == s.m.slot && s1.m.pending == s.m.pending
    requires Readers(s1.threads) == Readers(s.threads) && Section(s1, r, t)
    ensures Section(s, r, t)
  {}

  lemma FinishSynthesisSection(s: State, t: nat, w: Window, made: Option<Addr>, synthesizes: bool)
    requires Alive(s) && At(s, t) && s.threads[t].pc == SynthBack(w, made)
    ensures
      var r := FinishSynthesis(s, t, w, made, synthesizes);
      Section(s, r, t) && PcSound(r.m, t, r.threads[t].pc)
  {
    hide Balanced;
    hide Locked;
    hide DropBoth;
    hide CloseWindow;
    hide SynthOutdated;
    hide Replace;
    hide Section;
    assert PinsOf(s.threads[t].pc) == One(made) + One(w.cache);
    if SynthOutdated(s, w, made) {
      RetrySection(s, t, w, made, synthesizes);
    } else {
      assert PinsOf(s.threads[t].pc) == One(None) + One(w.cache) + One(made);
      DropBothSection(s, t, w, None, made);
      var s2 := DropBoth(CloseWindow(s, t, w), None, w.cache);
      SectionKeepsThread(s, s2, t);
      if made.Some? {
        InstallSection(s2, t, made.value);
        SectionThen(s, s2, FinishSynthesis(s, t, w, made, synthesizes), t);
      }
    }
  }

  lemma SectionKeepsThread(s: State, r: State, t: nat)
    requires At(s, t) && Section(s, r, t)
    ensures At(r, t)
  {}

  lemma SectionQuiet(s: State, r: State, t: nat)
    requires At(s, t) && Section(s, r, t)
    ensures Quiet(s, r, t)
  {
    assert Evolved(s.m.heap, r.m.heap);
    QuietWhenDisplacing(s, r, t);
  }

  // ----- every action -----

  lemma LookupShape(s: State, x: Action)
    requires Alive(s)
    requires x.Call? || x.ReadDone? || x.Relock? || x.SynthSnapshot? || x.SynthDone? || x.SynthRelock?
    requires At(s, x.t)
    ensures Quiet(s, Lookup(s, x), x.t)
    ensures PcSound(Lookup(s, x).m, x.t, Lookup(s, x).threads[x.t].pc)
  {
    hide Balanced;
    hide FinishRead;
    hide FinishSynthesis;
    hide Locked;
    var r := Lookup(s, x);
    var pc := s.threads[x.t].pc;
    assert PcSound(s.m, x.t, pc);
    match x {
      case Call(t, synthesizes) =>
        if pc.Idle? {
          var s1 := Enter(s, t);
          if s.m.slot.Some? { SlotInHeap(s); }
          LockedSection(s1, t, synthesizes);
          SectionQuiet(s, r, t);
        }
      case ReadDone(t, outcome, at) =>
        if pc.Reading? && at !in s.m.heap {
          ReadDoneSound(s, t, outcome, at);
          QuietWhenDisplacing(s, r, t);
        }
      case Relock(t, synthesizes) =>
        if pc.ReadBack? {
          FinishReadSection(s, t, pc.w, pc.made, synthesizes);
          SectionQuiet(s, r, t);
        }
      case SynthSnapshot(t) => SectionQuiet(s, r, t);
      case SynthDone(t, outcome, at) =>
        if pc.Synthesizing? && at !in s.m.heap {
          SynthDoneSound(s, t, outcome, at);
          QuietWhenDisplacing(s, r, t);
        }
      case SynthRelock(t, synthesizes) =>
        if pc.SynthBack? {
          FinishSynthesisSection(s, t, pc.w, pc.made, synthesizes);
          SectionQuiet(s, r, t);
        }
    }
  }

  lemma ReadDoneSound(s: State, t: nat, outcome: ReadOutcome, at: Addr)
    requires At(s, t) && s.threads[t].pc.Reading? && PcSound(s.m, t, s.threads[t].pc) && at !in s.m.heap
    ensures
      var r := Lookup(s, ReadDone(t, outcome, at));
      PcSound(r.m, t, r.threads[t].pc) && Evolved(s.m.heap, r.m.heap)
  {}

  lemma SynthDoneSound(s: State, t: nat, outcome: SynthOutcome, at: Addr)
    requires At(s, t) && s.threads[t].pc.Synthesizing? && PcSound(s.m, t, s.threads[t].pc) && at !in s.m.heap
    ensures
      var r := Lookup(s, SynthDone(t, outcome, at));
      PcSound(r.m, t, r.threads[t].pc) && Evolved(s.m.heap, r.m.heap)
  {}

  lemma FastShape(s: State, x: Action)
    requires Alive(s)
    requires x.Deref? || x.RcuPin? || x.DropProbe? || x.Release?
    requires At(s, x.t)
    ensures Quiet(s, Fast(s, x), x.t)
    ensures PcSound(Fast(s, x).m, x.t, Fast(s, x).threads[x.t].pc)
  {
    hide Balanced;
    var r := Fast(s, x);
    var t, pc := x.t, s.threads[x.t].pc;
    assert PcSound(s.m, t, pc);
    assert Derived(s.m.heap, r.m.heap);
    if x.RcuPin? && pc.InRcu? {
      LeavingQuiet(s, r, t);
    } else {
      SectionQuiet(s, r, t);
    }
  }

  lemma LeavingQuiet(s: State, r: State, t: nat)
    requires At(s, t)
    requires |r.threads| == |s.threads| && r.threads == s.threads[t := r.threads[t]]
    requires Derived(s.m.heap, r.m.heap)
    requires r.m.slot == s.m.slot && r.m.pending == LeaveRcu(s.m.pending, t)
    ensures Quiet(s, r, t)
  {
    forall i | 0 <= i < |s.threads| && i != t && s.threads[i].pc.InRcu? && Protected(s.m, i, s.threads[i].pc.a)
      ensures Protected(r.m, i, s.threads[i].pc.a)
    {
      var a := s.threads[i].pc.a;
      if s.m.slot != Some(a) {
        var k :| 0 <= k < |s.m.pending| && s.m.pending[k].entry == a && i in s.m.pending[k].readers;
        assert r.m.pending[k].entry == a && i in r.m.pending[k].readers;
      }
    }
  }

  lemma PersistShape(s: State, x: Action)
    requires x.Claim? || x.QueuePersist? || x.PersistStart? || x.PersistWritten? || x.Promote?
    requires At(s, x.t) && PcSound(s.m, x.t, s.threads[x.t].pc)
    ensures Quiet(s, Persist(s, x), x.t)
    ensures PcSound(Persist(s, x).m, x.t, Persist(s, x).threads[x.t].pc)
  {
    hide Wrap;
    var r := Persist(s, x);
    if x.Promote? {
      PromoteShape(s, x.t);
    } else if x.PersistWritten? {
      WrittenShape(s, x.t, x.ok, x.at);
    }
    hide Quiet;
    QuietWhenDisplacing(s, r, x.t);
  }

  lemma PromoteShape(s: State, t: nat)
    requires At(s, t) && PcSound(s.m, t, s.threads[t].pc)
    ensures
      var r := Persist(s, Promote(t));
      && |r.threads| == |s.threads| && r.threads == s.threads[t := r.threads[t]]
      && Evolved(s.m.heap, r.m.heap) && Displaces(s, r.m) && PcSound(r.m, t, r.threads[t].pc)
  {
    hide Wrap;
    if s.threads[t].pc.Promoting? {
      ReadersUpdate(s.threads, t, s.threads[t].(pc := Idle));
    }
  }

  lemma WrittenShape(s: State, t: nat, ok: bool, at: Addr)
    requires At(s, t) && PcSound(s.m, t, s.threads[t].pc)
    ensures
      var r := Persist(s, PersistWritten(t, ok, at));
      && |r.threads| == |s.threads| && r.threads == s.threads[t := r.threads[t]]
      && Evolved(s.m.heap, r.m.heap) && Displaces(s, r.m) && PcSound(r.m, t, r.threads[t].pc)
  {
    hide Wrap;
  }

  lemma OutsideShape(s: State, x: Action)
    requires x.SetSecurity? || x.PostSetxattr? || x.Invalidate? || x.BumpGeneration? || x.GracePeriod?
    ensures Quiet(s, Outside(s, x), -1)
  {
    var r := Outside(s, x);
    if x.GracePeriod? && x.k < |s.m.pending| && s.m.pending[x.k].readers == {} {
      GraceQuiet(s, x.k);
    } else {
      assert Evolved(s.m.heap, r.m.heap);
      QuietWhenDisplacing(s, r, -1);
    }
  }

  /** A grace period ends only when nobody it covers is still inside. */
  lemma GraceQuiet(s: State, k: nat)
    requires k < |s.m.pending| && s.m.pending[k].readers == {}
    ensures Quiet(s, Outside(s, GracePeriod(k)), -1)
  {
    var r := Outside(s, GracePeriod(k));
    forall i | 0 <= i < |s.threads| && s.threads[i].pc.InRcu? && Protected(s.m, i, s.threads[i].pc.a)
      ensures Protected(r.m, i, s.threads[i].pc.a)
    {
      var a := s.threads[i].pc.a;
      if s.m.slot != Some(a) {
        var j :| 0 <= j < |s.m.pending| && s.m.pending[j].entry == a && i in s.m.pending[j].readers;
        assert r.m.pending[if j < k then j else j - 1] == s.m.pending[j];
      }
    }
  }

  lemma ActAlive(s: State, x: Action)
    requires Alive(s)
    ensures Alive(Act(s, x))
  {
    hide Balanced;
    hide Fast;
    hide Lookup;
    hide Persist;
    hide Outside;
    hide Quiet;
    var r := Act(s, x);
    ActRefs(s, x);
    if x.SetSecurity? || x.PostSetxattr? || x.Invalidate? || x.BumpGeneration? || x.GracePeriod? {
      OutsideShape(s, x);
      AliveFrom(s, r, -1);
    } else if !At(s, x.t) {
      NobodyActs(s, x);
    } else {
      if x.Deref? || x.RcuPin? || x.DropProbe? || x.Release? {
        FastShape(s, x);
      } else if x.Call? || x.ReadDone? || x.Relock? || x.SynthSnapshot? || x.SynthDone? || x.SynthRelock? {
        LookupShape(s, x);
      } else {
        assert PcSound(s.m, x.t, s.threads[x.t].pc);
        PersistShape(s, x);
      }
      AliveFrom(s, r, x.t);
    }
  }

  lemma NobodyActs(s: State, x: Action)
    requires !(x.SetSecurity? || x.PostSetxattr? || x.Invalidate? || x.BumpGeneration? || x.GracePeriod?)
    requires !At(s, x.t)
    ensures Act(s, x) == s
  {}

  lemma StepAlive(s: State, x: Action)
    requires Alive(s)
    ensures Alive(Step(s, x))
  {
    hide Act;
    hide Balanced;
    ActAlive(s, x);
    var r := Act(s, x);
    TickRefs(r);
    QuietWhenDisplacing(r, Tick(r), -1);
    AliveFrom(r, Tick(r), -1);
  }

  /** Over every schedule, whatever a thread remembers is alive and unchanged. */
  lemma {:induction false} NothingUsedIsFreed(reread: bool, n: nat, xs: seq<Action>)
    ensures Alive(Execute(Init(reread, n), xs))
  {
    hide Balanced;
    if xs == [] {
      InitRefs(reread, n);
    } else {
      NothingUsedIsFreed(reread, n, xs[..|xs| - 1]);
      StepAlive(Execute(Init(reread, n), xs[..|xs| - 1]), xs[|xs| - 1]);
    }
  }

  /** `refcount_inc_not_zero` on a candidate found under RCU always succeeds. */
  lemma CandidatePinSucceeds(reread: bool, n: nat, xs: seq<Action>, t: nat)
    requires
      var s := Execute(Init(reread, n), xs);
      t < |s.threads| && s.threads[t].pc.InRcu?
    ensures
      var s := Execute(Init(reread, n), xs);
      var pc := s.threads[t].pc;
      var r := Step(s, RcuPin(t));
      && pc.a in s.m.heap && s.m.heap[pc.a].refs > 0
      && r.threads[t].pc == (if s.reread then Probed(pc.a, pc.e) else Holding(pc.a, pc.e))
      && r.m.heap[pc.a].entry == pc.e
  {
    NothingUsedIsFreed(reread, n, xs);
    var s := Execute(Init(reread, n), xs);
    assert PcSound(s.m, t, s.threads[t].pc);
  }
}
