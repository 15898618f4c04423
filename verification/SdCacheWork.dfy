/** How much work a lookup does, what concurrent readers cost each other, and when a
    synthesized entry may be installed. */
module SdCacheWork {
  import opened Widths
  import opened Descriptors
  import opened SdCacheMachine
  import opened SdCacheReferences
  import opened SdCacheLifetimes
  import opened SdCacheSteps
  import opened SdCacheCounters
  import opened SdCacheOrder
  import opened SdCacheTheorems

  // ----- reads and syntheses of one lookup -----

  /** The step by which thread `t` starts a new lookup. */
  predicate Enters(s: State, x: Action, t: nat) {
    x.Call? && x.t == t && At(s, t) && s.threads[t].pc.Idle?
  }

  /** How often others interfered since thread `t` began its lookup: interfering steps
      of other threads, of writers and of policy changes, and none of its own. */
  ghost function Disturbances(s: State, xs: seq<Action>, t: nat): nat {
    if xs == [] then 0
    else
      var before, x := Execute(s, xs[..|xs| - 1]), xs[|xs| - 1];
      if Enters(before, x, t) then 0
      else Disturbances(s, xs[..|xs| - 1], t) + if ByThread(x, t) then 0 else Added(before, x)
  }

  function Added(s: State, x: Action): nat {
    var now, later := Interference(s.reread, s.m), Interference(s.reread, Step(s, x).m);
    if later >= now then later - now else 0
  }

  /** The interference a lookup has seen, and what its open window will still see, is
      within `d`. */
  predicate CountedThread(s: State, th: Thread, d: nat) {
    var now := Interference(s.reread, s.m);
    if OpenWindow(th.pc).Some?
    then OpenWindow(th.pc).value.interference <= now && th.seen + (now - OpenWindow(th.pc).value.interference) <= d
    else th.seen <= d
  }

  lemma LockedCounted(s: State, t: nat, synthesizes: bool, d: nat)
    requires At(s, t) && s.threads[t].pc.Idle? && CountedThread(s, s.threads[t], d)
    ensures |Locked(s, t, synthesizes).threads| == |s.threads|
    ensures CountedThread(Locked(s, t, synthesizes), Locked(s, t, synthesizes).threads[t], d)
  {}

  lemma AfterPopulateCounted(s: State, t: nat, a: Addr, synthesizes: bool, d: nat)
    requires At(s, t) && s.threads[t].pc.Idle? && CountedThread(s, s.threads[t], d)
    ensures |AfterPopulate(s, t, a, synthesizes).threads| == |s.threads|
    ensures CountedThread(AfterPopulate(s, t, a, synthesizes), AfterPopulate(s, t, a, synthesizes).threads[t], d)
  {}

  lemma RelockCounted(s: State, t: nat, w: Window, made: Option<Addr>, synthesizes: bool, d: nat)
    requires At(s, t) && s.threads[t].pc == ReadBack(w, made) && CountedThread(s, s.threads[t], d)
    ensures
      var r := FinishRead(s, t, w, made, synthesizes);
      |r.threads| == |s.threads| && CountedThread(r, r.threads[t], d)
  {
    hide Locked;
    hide AfterPopulate;
    hide Wrap;
    var s1 := CloseWindow(s, t, w);
    if ReadOutdated(s, w) {
      LockedCounted(DropBoth(s1, made, w.cache), t, synthesizes, d);
    } else if made.Some? {
      if ReusePublished(s, w) {
        AfterPopulateCounted(DropBoth(s1, made, w.cache), t, s.m.slot.value, synthesizes, d);
      } else {
        AfterPopulateCounted(DropBoth(PublishRead(s1, w, made.value), None, w.cache), t, made.value, synthesizes, d);
      }
    }
  }

  lemma SynthRelockCounted(s: State, t: nat, w: Window, made: Option<Addr>, synthesizes: bool, d: nat)
    requires At(s, t) && s.threads[t].pc == SynthBack(w, made) && CountedThread(s, s.threads[t], d)
    ensures
      var r := FinishSynthesis(s, t, w, made, synthesizes);
      |r.threads| == |s.threads| && CountedThread(r, r.threads[t], d)
  {
    hide Locked;
    hide Wrap;
    LockedCounted(DropBoth(CloseWindow(s, t, w), made, w.cache), t, synthesizes, d);
  }

  lemma FastCounted(s: State, x: Action, d: nat)
    requires x.Deref? || x.RcuPin? || x.DropProbe? || x.Release?
    requires At(s, x.t) && CountedThread(s, s.threads[x.t], d)
    ensures CountedThread(Fast(s, x), Fast(s, x).threads[x.t], d)
  {
    FastStepIsPlain(s, x);
  }

  lemma PersistCounted(s: State, x: Action, d: nat)
    requires x.Claim? || x.QueuePersist? || x.PersistStart? || x.PersistWritten? || x.Promote?
    requires At(s, x.t) && CountedThread(s, s.threads[x.t], d)
    ensures CountedThread(Persist(s, x), Persist(s, x).threads[x.t], d)
  {
    hide Wrap;
  }

  lemma LookupCounted(s: State, x: Action, d: nat)
    requires x.Call? || x.ReadDone? || x.Relock? || x.SynthSnapshot? || x.SynthDone? || x.SynthRelock?
    requires At(s, x.t) && CountedThread(s, s.threads[x.t], d)
    ensures |Lookup(s, x).threads| == |s.threads|
    ensures CountedThread(Lookup(s, x), Lookup(s, x).threads[x.t], if Enters(s, x, x.t) then 0 else d)
  {
    hide Wrap;
    hide Locked;
    hide FinishRead;
    hide FinishSynthesis;
    var pc := s.threads[x.t].pc;
    if x.Relock? && pc.ReadBack? {
      RelockCounted(s, x.t, pc.w, pc.made, x.synthesizes, d);
    } else if x.SynthRelock? && pc.SynthBack? {
      SynthRelockCounted(s, x.t, pc.w, pc.made, x.synthesizes, d);
    } else if x.Call? && pc.Idle? {
      LockedCounted(Enter(s, x.t), x.t, x.synthesizes, 0);
    }
  }

  lemma ActorCounted(s: State, x: Action, t: nat, d: nat)
    requires ByThread(x, t) && At(s, t) && CountedThread(s, s.threads[t], d) && At(Step(s, x), t)
    ensures CountedThread(Step(s, x), Step(s, x).threads[t], if Enters(s, x, t) then 0 else d)
  {
    hide Fast;
    hide Lookup;
    hide Persist;
    if x.Deref? || x.RcuPin? || x.DropProbe? || x.Release? {
      FastCounted(s, x, d);
    } else if x.Call? || x.ReadDone? || x.Relock? || x.SynthSnapshot? || x.SynthDone? || x.SynthRelock? {
      LookupCounted(s, x, d);
    } else {
      PersistCounted(s, x, d);
    }
  }

  lemma StepCounted(s: State, x: Action, t: nat, d: nat)
    requires Alive(s) && At(s, t) && CountedThread(s, s.threads[t], d)
    ensures At(Step(s, x), t)
    ensures
      CountedThread(Step(s, x), Step(s, x).threads[t],
                    if Enters(s, x, t) then 0 else d + if ByThread(x, t) then 0 else Added(s, x))
  {
    hide Balanced;
    hide Act;
    hide CountedThread;
    CountersGrow(s, x);
    RereadStays(s, x);
    StepKeepsThreads(s, x);
    if ByThread(x, t) {
      ActorCounted(s, x, t, d);
    } else {
      if x.SetSecurity? || x.PostSetxattr? || x.Invalidate? || x.BumpGeneration? || x.GracePeriod? {
        OutsideMovesNobody(s, x);
      } else if !At(s, x.t) {
        NobodyActs(s, x);
      } else {
        OthersDoNotMove(s, x, t);
      }
      StillCounted(s, x, t, d);
    }
  }

  lemma StillCounted(s: State, x: Action, t: nat, d: nat)
    requires At(s, t) && At(Step(s, x), t) && Step(s, x).threads[t] == s.threads[t] && Step(s, x).reread == s.reread
    requires Grows(s.m, Step(s, x).m) && CountedThread(s, s.threads[t], d)
    ensures CountedThread(Step(s, x), Step(s, x).threads[t], d + Added(s, x))
  {
    hide Step;
  }

  /** Over every schedule, what a lookup has seen is paid for by others. */
  lemma {:induction false} AlwaysCounted(reread: bool, n: nat, xs: seq<Action>, t: nat)
    requires t < n
    ensures At(Execute(Init(reread, n), xs), t)
    ensures CountedThread(Execute(Init(reread, n), xs), Execute(Init(reread, n), xs).threads[t],
                          Disturbances(Init(reread, n), xs, t))
  {
    hide Balanced;
    hide Step;
    hide Added;
    if xs != [] {
      AlwaysCounted(reread, n, xs[..|xs| - 1], t);
      NothingUsedIsFreed(reread, n, xs[..|xs| - 1]);
      hide CountedThread;
      StepCounted(Execute(Init(reread, n), xs[..|xs| - 1]), xs[|xs| - 1], t,
                  Disturbances(Init(reread, n), xs[..|xs| - 1], t));
    }
  }

  /** Termination: a lookup has made at most one xattr read, and at most one synthesis,
      more than others interfered since it began; its own publications cost it nothing. */
  lemma LookupWorkIsBounded(reread: bool, n: nat, xs: seq<Action>, t: nat)
    requires t < n
    ensures
      var s, d := Execute(Init(reread, n), xs), Disturbances(Init(reread, n), xs, t);
      At(s, t) && s.threads[t].readCount <= 1 + d && s.threads[t].synths <= 1 + d
  {
    hide Disturbances;
    var s := Execute(Init(reread, n), xs);
    AlwaysCounts(reread, n, xs);
    AlwaysCounted(reread, n, xs, t);
    assert ThreadCounts(s.reread, s.m, s.threads[t]);
  }

  // ----- concurrent readers -----

  /** Every open window opened after the last interference. */
  predicate FreshWindow(s: State, th: Thread) {
    OpenWindow(th.pc).Some? ==> OpenWindow(th.pc).value.interference == Interference(s.reread, s.m)
  }

  predicate FreshWindows(s: State) {
    forall i :: 0 <= i < |s.threads| ==> FreshWindow(s, s.threads[i])
  }

  /** Reads and calls went up together, and the thread's window, if any, is fresh. */
  predicate EvenStep(s: State, r: State, t: nat) {
    At(r, t) && r.readCount - s.readCount == r.calls - s.calls && FreshWindow(r, r.threads[t])
  }

  lemma RelockIsEven(s: State, t: nat, synthesizes: bool)
    requires Counts(s) && s.reread && At(s, t) && s.threads[t].pc.ReadBack? && FreshWindow(s, s.threads[t])
    ensures EvenStep(s, FinishRead(s, t, s.threads[t].pc.w, s.threads[t].pc.made, synthesizes), t)
  {
    hide Wrap;
    var w := s.threads[t].pc.w;
    assert OpenWindow(s.threads[t].pc) == Some(w);
    assert ThreadCounts(s.reread, s.m, s.threads[t]);
    if ReadOutdated(s, w) {
      OutdatedMeansInterference(s, w);
    }
    hide ReadOutdated;
    hide Counts;
  }

  lemma LookupIsEven(s: State, x: Action)
    requires x.Call? || x.ReadDone? || x.Relock? || x.SynthSnapshot? || x.SynthDone? || x.SynthRelock?
    requires Counts(s) && s.reread && At(s, x.t) && FreshWindow(s, s.threads[x.t])
    ensures EvenStep(s, Lookup(s, x), x.t)
  {
    hide Wrap;
    hide FinishRead;
    hide FinishSynthesis;
    assert ThreadCounts(s.reread, s.m, s.threads[x.t]);
    hide Counts;
    if x.Relock? && s.threads[x.t].pc.ReadBack? {
      RelockIsEven(s, x.t, x.synthesizes);
    }
  }

  lemma FastIsEven(s: State, x: Action)
    requires x.Deref? || x.RcuPin? || x.DropProbe? || x.Release?
    requires At(s, x.t) && FreshWindow(s, s.threads[x.t])
    ensures EvenStep(s, Fast(s, x), x.t)
  {
    FastStepIsPlain(s, x);
  }

  lemma PersistIsEven(s: State, x: Action)
    requires x.Claim? || x.QueuePersist? || x.PersistStart? || x.PersistWritten? || x.Promote?
    requires At(s, x.t) && FreshWindow(s, s.threads[x.t])
    ensures EvenStep(s, Persist(s, x), x.t)
  {
    hide Wrap;
  }

  lemma ActorIsEven(s: State, x: Action, t: nat)
    requires ByThread(x, t) && At(s, t) && Counts(s) && s.reread && FreshWindow(s, s.threads[t])
    ensures EvenStep(s, Step(s, x), t)
  {
    hide Counts;
    hide Fast;
    hide Lookup;
    hide Persist;
    if x.Deref? || x.RcuPin? || x.DropProbe? || x.Release? {
      FastIsEven(s, x);
    } else if x.Call? || x.ReadDone? || x.Relock? || x.SynthSnapshot? || x.SynthDone? || x.SynthRelock? {
      LookupIsEven(s, x);
    } else {
      PersistIsEven(s, x);
    }
  }

  /** A step that interferes with nobody keeps every window fresh and costs one read for
      each lookup it starts. */
  lemma StepIsEven(s: State, x: Action)
    requires Alive(s) && Counts(s) && s.reread && FreshWindows(s)
    requires Interference(true, Step(s, x).m) == Interference(true, s.m)
    ensures Step(s, x).readCount - s.readCount == Step(s, x).calls - s.calls
    ensures FreshWindows(Step(s, x))
  {
    hide Balanced;
    hide Counts;
    hide Act;
    var r := Step(s, x);
    RereadStays(s, x);
    StepKeepsThreads(s, x);
    if x.SetSecurity? || x.PostSetxattr? || x.Invalidate? || x.BumpGeneration? || x.GracePeriod? {
      OutsideMovesNobody(s, x);
      OutsideReadsNothing(s, x);
    } else if !At(s, x.t) {
      NobodyActs(s, x);
    } else {
      ActorIsEven(s, x, x.t);
      forall i | 0 <= i < |r.threads| && i != x.t ensures FreshWindow(r, r.threads[i]) {
        OthersDoNotMove(s, x, i);
      }
    }
  }

  lemma OutsideReadsNothing(s: State, x: Action)
    requires x.SetSecurity? || x.PostSetxattr? || x.Invalidate? || x.BumpGeneration? || x.GracePeriod?
    ensures Step(s, x).readCount == s.readCount && Step(s, x).calls == s.calls
  {}

  /** On StrataFS, between any two states of a run with no read under way at the first
      and no replacement or policy change in between, N lookups do exactly N reads
      however they interleave and however long they last. */
  lemma {:induction false} ReadersDoNotDisturbEachOther(n: nat, xs: seq<Action>, k: nat)
    requires k <= |xs|
    requires
      var s, r := Execute(Init(true, n), xs[..k]), Execute(Init(true, n), xs);
      && FreshWindows(s)
      && r.m.past.invalidations == s.m.past.invalidations && r.m.past.bumps == s.m.past.bumps
    ensures
      var s, r := Execute(Init(true, n), xs[..k]), Execute(Init(true, n), xs);
      r.readCount - s.readCount == r.calls - s.calls && FreshWindows(r)
    decreases |xs|
  {
    hide Balanced;
    hide Step;
    if k == |xs| {
      assert xs[..k] == xs;
    } else {
      var ys := xs[..|xs| - 1];
      var s1 := Execute(Init(true, n), ys);
      assert ys[..k] == xs[..k];
      CountersGrowOver(true, n, ys, k);
      CountersGrow(s1, xs[|xs| - 1]);
      ReadersDoNotDisturbEachOther(n, ys, k);
      AlwaysCounts(true, n, ys);
      NothingUsedIsFreed(true, n, ys);
      RereadIsFixed(true, n, ys);
      StepIsEven(s1, xs[|xs| - 1]);
    }
  }

  // ----- tags -----

  predicate SyntheticEntry(e: Entry) {
    e.state.Valid? && (e.source.Synthetic? || e.source.SyntheticPending?)
  }

  /** Missing entries are tagged as such, and what a synthesis made is synthetic. */
  predicate Tagged(s: State) {
    && (forall a :: a in s.m.heap ==> TaggedEntry(s.m.heap[a].entry))
    && (forall i :: 0 <= i < |s.threads| ==> TaggedPc(s.m.heap, s.threads[i].pc))
  }

  predicate TaggedEntry(e: Entry) {
    e.state.Missing? ==> e.source.FromMissing?
  }

  predicate TaggedPc(h: Heap, pc: Pc) {
    pc.SynthBack? && pc.made.Some? && pc.made.value in h ==> SyntheticEntry(h[pc.made.value].entry)
  }

  lemma NewEntryTagged(s: State, x: Action, a: Addr)
    requires Alive(s) && a in Step(s, x).m.heap && a !in s.m.heap
    ensures TaggedEntry(Step(s, x).m.heap[a].entry)
  {
    hide Balanced;
    hide Fast;
    hide Persist;
    hide Wrap;
    if x.Deref? || x.RcuPin? || x.DropProbe? || x.Release? {
      FastAllocatesNothing(s, x);
    } else if x.Claim? || x.QueuePersist? || x.PersistStart? || x.PersistWritten? || x.Promote? {
      PersistAllocatesStored(s, x, a);
    } else if x.Call? || x.Relock? || x.SynthRelock? {
      RelocksAllocateNothing(s, x);
    }
  }

  lemma PersistAllocatesStored(s: State, x: Action, a: Addr)
    requires x.Claim? || x.QueuePersist? || x.PersistStart? || x.PersistWritten? || x.Promote?
    requires a in Persist(s, x).m.heap && a !in s.m.heap
    ensures TaggedEntry(Persist(s, x).m.heap[a].entry)
  {
    hide Wrap;
  }

  lemma RelocksAllocateNothing(s: State, x: Action)
    requires Alive(s) && (x.Call? || x.Relock? || x.SynthRelock?)
    ensures Derived(s.m.heap, Lookup(s, x).m.heap)
  {
    hide Balanced;
    hide Locked;
    hide FinishRead;
    hide FinishSynthesis;
    if At(s, x.t) {
      var pc := s.threads[x.t].pc;
      if x.Call? && pc.Idle? {
        if s.m.slot.Some? { SlotInHeap(s); }
        LockedSection(Enter(s, x.t), x.t, x.synthesizes);
      } else if x.Relock? && pc.ReadBack? {
        FinishReadSection(s, x.t, pc.w, pc.made, x.synthesizes);
      } else if x.SynthRelock? && pc.SynthBack? {
        FinishSynthesisSection(s, x.t, pc.w, pc.made, x.synthesizes);
      }
    }
  }

  lemma FastAllocatesNothing(s: State, x: Action)
    requires x.Deref? || x.RcuPin? || x.DropProbe? || x.Release?
    ensures Derived(s.m.heap, Fast(s, x).m.heap)
  {
    if At(s, x.t) {
      FastStepIsPlain(s, x);
    }
  }

  lemma LockedTagged(s: State, t: nat, synthesizes: bool)
    requires At(s, t)
    ensures |Locked(s, t, synthesizes).threads| == |s.threads| && !Locked(s, t, synthesizes).threads[t].pc.SynthBack?
  {}

  lemma AfterPopulateTagged(s: State, t: nat, a: Addr, synthesizes: bool)
    requires At(s, t)
    ensures |AfterPopulate(s, t, a, synthesizes).threads| == |s.threads|
    ensures !AfterPopulate(s, t, a, synthesizes).threads[t].pc.SynthBack?
  {}

  lemma RelocksLeaveSynthesis(s: State, x: Action)
    requires x.Call? || x.Relock? || x.SynthRelock?
    requires At(s, x.t) && At(Lookup(s, x), x.t) && TaggedPc(s.m.heap, s.threads[x.t].pc)
    ensures TaggedPc(Lookup(s, x).m.heap, Lookup(s, x).threads[x.t].pc)
  {
    hide Locked;
    hide AfterPopulate;
    hide Wrap;
    var t, pc := x.t, s.threads[x.t].pc;
    if x.Call? && pc.Idle? {
      LockedTagged(Enter(s, t), t, x.synthesizes);
    } else if x.Relock? && pc.ReadBack? {
      var s1 := CloseWindow(s, t, pc.w);
      LockedTagged(DropBoth(s1, pc.made, pc.w.cache), t, x.synthesizes);
      if s.m.slot.Some? {
        AfterPopulateTagged(DropBoth(s1, pc.made, pc.w.cache), t, s.m.slot.value, x.synthesizes);
      }
      if pc.made.Some? {
        AfterPopulateTagged(DropBoth(PublishRead(s1, pc.w, pc.made.value), None, pc.w.cache), t, pc.made.value,
                            x.synthesizes);
      }
    } else if x.SynthRelock? && pc.SynthBack? {
      LockedTagged(DropBoth(CloseWindow(s, t, pc.w), pc.made, pc.w.cache), t, x.synthesizes);
    }
  }

  lemma ActorTagged(s: State, x: Action)
    requires !(x.SetSecurity? || x.PostSetxattr? || x.Invalidate? || x.BumpGeneration? || x.GracePeriod?)
    requires At(s, x.t) && TaggedPc(s.m.heap, s.threads[x.t].pc) && At(Step(s, x), x.t)
    requires PcSound(s.m, x.t, s.threads[x.t].pc)
    ensures TaggedPc(Step(s, x).m.heap, Step(s, x).threads[x.t].pc)
  {
    hide Wrap;
    hide Fast;
    hide Persist;
    if x.Deref? || x.RcuPin? || x.DropProbe? || x.Release? {
      FastStepIsPlain(s, x);
    } else if x.Call? || x.Relock? || x.SynthRelock? {
      hide Lookup;
      RelocksLeaveSynthesis(s, x);
    } else if x.ReadDone? || x.SynthSnapshot? || x.SynthDone? {
    } else {
      PersistTagged(s, x);
    }
  }

  lemma PersistTagged(s: State, x: Action)
    requires x.Claim? || x.QueuePersist? || x.PersistStart? || x.PersistWritten? || x.Promote?
    requires At(s, x.t) && TaggedPc(s.m.heap, s.threads[x.t].pc)
    ensures TaggedPc(Persist(s, x).m.heap, Persist(s, x).threads[x.t].pc)
  {
    hide Wrap;
  }

  lemma StepTagged(s: State, x: Action)
    requires Alive(s) && Tagged(s)
    ensures Tagged(Step(s, x))
  {
    hide Balanced;
    hide Act;
    hide TaggedPc;
    var r := Step(s, x);
    EntriesEvolve(s, x);
    StepKeepsThreads(s, x);
    forall a | a in r.m.heap ensures TaggedEntry(r.m.heap[a].entry) {
      if a !in s.m.heap {
        NewEntryTagged(s, x, a);
      }
    }
    forall i | 0 <= i < |r.threads| ensures TaggedPc(r.m.heap, r.threads[i].pc) {
      assert PcSound(s.m, i, s.threads[i].pc);
      if x.SetSecurity? || x.PostSetxattr? || x.Invalidate? || x.BumpGeneration? || x.GracePeriod? {
        OutsideMovesNobody(s, x);
        StillTagged(s, r, i);
      } else if !At(s, x.t) {
        NobodyActs(s, x);
        StillTagged(s, r, i);
      } else if x.t == i {
        ActorTagged(s, x);
      } else {
        OthersDoNotMove(s, x, i);
        StillTagged(s, r, i);
      }
    }
  }

  lemma StillTagged(s: State, r: State, i: nat)
    requires At(s, i) && At(r, i) && r.threads[i] == s.threads[i] && PcSound(s.m, i, s.threads[i].pc)
    requires Evolved(s.m.heap, r.m.heap) && TaggedPc(s.m.heap, s.threads[i].pc)
    ensures TaggedPc(r.m.heap, r.threads[i].pc)
  {}

  lemma {:induction false} AlwaysTagged(reread: bool, n: nat, xs: seq<Action>)
    ensures Tagged(Execute(Init(reread, n), xs))
  {
    hide Balanced;
    hide Step;
    if xs != [] {
      AlwaysTagged(reread, n, xs[..|xs| - 1]);
      NothingUsedIsFreed(reread, n, xs[..|xs| - 1]);
      StepTagged(Execute(Init(reread, n), xs[..|xs| - 1]), xs[|xs| - 1]);
    }
  }

  // ----- the policy a synthesis started under -----

  predicate FittedPc(pc: Pc) {
    pc.Synthesizing? || pc.SynthBack? ==>
      pc.w.entry.Some? && TagFits(pc.w.entry.value.source, pc.w.entry.value.generation, pc.w.generation)
  }

  /** Every synthesis started from an entry that fitted the policy of its window. */
  predicate Fitted(s: State) {
    forall i :: 0 <= i < |s.threads| ==> FittedPc(s.threads[i].pc)
  }

  /** Off StrataFS, the entry a section under the mutex hands out fits the policy in force. */
  predicate HoldsCurrent(r: State, t: nat) {
    At(r, t) && !r.threads[t].pc.InRcu? && (r.threads[t].pc.Holding? && !r.reread ==> Current(r.m, r.threads[t].pc.e))
  }

  lemma LockedFitted(s: State, t: nat, synthesizes: bool)
    requires At(s, t)
    ensures HoldsCurrent(Locked(s, t, synthesizes), t) && FittedPc(Locked(s, t, synthesizes).threads[t].pc)
  {}

  lemma AfterPopulateFitted(s: State, t: nat, a: Addr, synthesizes: bool)
    requires At(s, t) && (s.reread || (a in s.m.heap ==> Current(s.m, s.m.heap[a].entry)))
    ensures
      var r := AfterPopulate(s, t, a, synthesizes);
      HoldsCurrent(r, t) && FittedPc(r.threads[t].pc)
  {}

  lemma FinishReadFitted(s: State, t: nat, w: Window, made: Option<Addr>, synthesizes: bool)
    requires Alive(s) && Counts(s) && At(s, t) && s.threads[t].pc == ReadBack(w, made) && PolicyBounded(s.m, w)
    ensures
      var r := FinishRead(s, t, w, made, synthesizes);
      HoldsCurrent(r, t) && FittedPc(r.threads[t].pc)
  {
    hide Balanced;
    hide Locked;
    hide AfterPopulate;
    hide Wrap;
    var s1 := CloseWindow(s, t, w);
    assert ThreadCounts(s.reread, s.m, s.threads[t]);
    hide Counts;
    if ReadOutdated(s, w) {
      LockedFitted(DropBoth(s1, made, w.cache), t, synthesizes);
    } else if made.Some? {
      GenerationInjective(w.bumps, s.m.past.bumps);
      hide GenerationAfter;
      if ReusePublished(s, w) {
        AfterPopulateFitted(DropBoth(s1, made, w.cache), t, s.m.slot.value, synthesizes);
      } else {
        PublishedIsCurrent(s, t, w, made.value);
        AfterPopulateFitted(DropBoth(PublishRead(s1, w, made.value), None, w.cache), t, made.value, synthesizes);
      }
    }
  }

  lemma PublishedIsCurrent(s: State, t: nat, w: Window, a: Addr)
    requires Alive(s) && At(s, t) && s.threads[t].pc == ReadBack(w, Some(a))
    requires a in s.m.heap ==> Current(s.m, s.m.heap[a].entry)
    ensures
      var s2 := DropBoth(PublishRead(CloseWindow(s, t, w), w, a), None, w.cache);
      a in s2.m.heap ==> Current(s2.m, s2.m.heap[a].entry)
  {
    hide Balanced;
    PublishMiddle(s, t, w, a);
  }

  lemma ActorFitted(s: State, x: Action)
    requires !(x.SetSecurity? || x.PostSetxattr? || x.Invalidate? || x.BumpGeneration? || x.GracePeriod?)
    requires Alive(s) && Counts(s) && At(s, x.t) && FittedPc(s.threads[x.t].pc) && At(Step(s, x), x.t)
    requires OpenWindow(s.threads[x.t].pc).Some? ==> PolicyBounded(s.m, OpenWindow(s.threads[x.t].pc).value)
    ensures FittedPc(Step(s, x).threads[x.t].pc)
  {
    hide Balanced;
    hide Counts;
    hide Fast;
    hide Persist;
    hide Locked;
    hide FinishRead;
    hide FinishSynthesis;
    var t, pc := x.t, s.threads[x.t].pc;
    if x.Deref? || x.RcuPin? || x.DropProbe? || x.Release? {
      FastStepIsPlain(s, x);
    } else if x.Claim? || x.QueuePersist? || x.PersistStart? || x.PersistWritten? || x.Promote? {
      PersistSynthesizesNothing(s, x);
    } else if x.Call? && pc.Idle? {
      LockedFitted(Enter(s, t), t, x.synthesizes);
    } else if x.Relock? && pc.ReadBack? {
      FinishReadFitted(s, t, pc.w, pc.made, x.synthesizes);
    } else if x.SynthRelock? && pc.SynthBack? {
      FinishSynthesisFitted(s, t, pc.w, pc.made, x.synthesizes);
    }
  }

  lemma PersistSynthesizesNothing(s: State, x: Action)
    requires x.Claim? || x.QueuePersist? || x.PersistStart? || x.PersistWritten? || x.Promote?
    requires At(s, x.t) && FittedPc(s.threads[x.t].pc)
    ensures At(Persist(s, x), x.t) && FittedPc(Persist(s, x).threads[x.t].pc)
  {
    hide Wrap;
  }

  lemma FinishSynthesisFitted(s: State, t: nat, w: Window, made: Option<Addr>, synthesizes: bool)
    requires Alive(s) && At(s, t) && s.threads[t].pc == SynthBack(w, made)
    ensures
      var r := FinishSynthesis(s, t, w, made, synthesizes);
      HoldsCurrent(r, t) && FittedPc(r.threads[t].pc)
  {
    hide Balanced;
    hide Locked;
    hide Wrap;
    hide UnrefOption;
    if SynthOutdated(s, w, made) {
      LockedFitted(DropBoth(CloseWindow(s, t, w), made, w.cache), t, synthesizes);
    } else if made.Some? {
      InstallTakesTheSlot(s, t, w, made.value, synthesizes);
      InstallKeepsThePolicy(s, t, w, made.value, synthesizes);
      hide FinishSynthesis;
    }
  }

  lemma InstallKeepsThePolicy(s: State, t: nat, w: Window, a: Addr, synthesizes: bool)
    requires At(s, t) && !SynthOutdated(s, w, Some(a))
    ensures FinishSynthesis(s, t, w, Some(a), synthesizes).m.generation == s.m.generation
  {
    hide Wrap;
    hide UnrefOption;
    hide SynthOutdated;
  }

  lemma StepFitted(s: State, x: Action)
    requires Alive(s) && Counts(s) && PoliciesBounded(s) && Fitted(s)
    ensures Fitted(Step(s, x))
  {
    hide Balanced;
    hide Counts;
    hide Act;
    hide FittedPc;
    var r := Step(s, x);
    StepKeepsThreads(s, x);
    forall i | 0 <= i < |r.threads| ensures FittedPc(r.threads[i].pc) {
      if x.SetSecurity? || x.PostSetxattr? || x.Invalidate? || x.BumpGeneration? || x.GracePeriod? {
        OutsideMovesNobody(s, x);
      } else if !At(s, x.t) {
        NobodyActs(s, x);
      } else if x.t == i {
        ActorFitted(s, x);
      } else {
        OthersDoNotMove(s, x, i);
      }
    }
  }

  lemma {:induction false} AlwaysFitted(reread: bool, n: nat, xs: seq<Action>)
    requires PolicyBoundedRun(Init(reread, n), xs)
    ensures Fitted(Execute(Init(reread, n), xs))
  {
    hide Balanced;
    hide Step;
    if xs != [] {
      var ys := xs[..|xs| - 1];
      PrefixBounded(Init(reread, n), xs, |ys|);
      AlwaysFitted(reread, n, ys);
      AlwaysCounts(reread, n, ys);
      NothingUsedIsFreed(reread, n, ys);
      assert PoliciesBounded(Execute(Init(reread, n), xs[..|ys|]));
      StepFitted(Execute(Init(reread, n), ys), xs[|xs| - 1]);
    }
  }

  /** Off StrataFS nothing that a policy no longer in force produced is ever selected:
      over every run whose reads and syntheses outlive no policy generation. */
  lemma SelectedIsCurrent(n: nat, xs: seq<Action>, x: Action, t: nat, e: Entry)
    requires PolicyBoundedRun(Init(false, n), xs)
    requires Selects(Execute(Init(false, n), xs), x, t, e)
    ensures
      var m := Step(Execute(Init(false, n), xs), x).m;
      e.source.FromMissing? || e.source.Synthetic? || e.source.SyntheticPending? ==> e.generation == m.generation
  {
    hide Alive;
    hide Counts;
    hide Step;
    hide PoliciesBounded;
    hide Selects;
    RereadIsFixed(false, n, xs);
    AlwaysCounts(false, n, xs);
    NothingUsedIsFreed(false, n, xs);
    assert xs[..|xs|] == xs;
    SelectionIsCurrent(Execute(Init(false, n), xs), x, t, e);
  }

  lemma SelectionIsCurrent(s: State, x: Action, t: nat, e: Entry)
    requires Alive(s) && Counts(s) && PoliciesBounded(s) && !s.reread && Selects(s, x, t, e)
    ensures Current(Step(s, x).m, e)
  {
    hide Alive;
    hide Counts;
    hide Step;
    RereadStays(s, x);
    SelectionTakesTheSlot(s, x, t, e);
    if x.Deref? {
      DerefIsCurrent(s, x);
    } else {
      LookupHoldsCurrent(s, x);
    }
  }

  lemma DerefIsCurrent(s: State, x: Action)
    requires x.Deref? && At(s, x.t) && !s.threads[x.t].pc.InRcu?
    ensures
      var r := Step(s, x);
      At(r, x.t) && (r.threads[x.t].pc.InRcu? ==> Current(r.m, r.threads[x.t].pc.e)) &&
      (r.threads[x.t].pc.Holding? ==> s.threads[x.t].pc.Holding?)
  {}

  lemma LookupHoldsCurrent(s: State, x: Action)
    requires x.Call? || x.Relock? || x.SynthRelock?
    requires Alive(s) && Counts(s) && At(s, x.t)
    requires !s.threads[x.t].pc.Holding? && !s.threads[x.t].pc.InRcu?
    requires OpenWindow(s.threads[x.t].pc).Some? ==> PolicyBounded(s.m, OpenWindow(s.threads[x.t].pc).value)
    ensures HoldsCurrent(Step(s, x), x.t)
  {
    hide Balanced;
    hide Counts;
    hide Locked;
    hide FinishRead;
    hide FinishSynthesis;
    var t, pc := x.t, s.threads[x.t].pc;
    if x.Call? && pc.Idle? {
      LockedFitted(Enter(s, t), t, x.synthesizes);
    } else if x.Relock? && pc.ReadBack? {
      FinishReadFitted(s, t, pc.w, pc.made, x.synthesizes);
    } else if x.SynthRelock? && pc.SynthBack? {
      FinishSynthesisFitted(s, t, pc.w, pc.made, x.synthesizes);
    }
  }

  // ----- installing a synthesized entry -----

  /** The comparison after a synthesis, for a window in range that fits its policy. */
  lemma SynthesisComparison(s: State, t: nat)
    requires Alive(s) && Counts(s) && At(s, t) && s.threads[t].pc.SynthBack? && FittedPc(s.threads[t].pc)
    requires Bounded(false, s.m, s.threads[t].pc.w) && PolicyBounded(s.m, s.threads[t].pc.w)
    ensures
      var w := s.threads[t].pc.w;
      && !s.reread
      && (SynthOutdated(s, w, s.threads[t].pc.made) ==> Interference(false, s.m) > w.interference)
      && (!SynthOutdated(s, w, s.threads[t].pc.made) ==> s.m.past.epochs == w.epochs && s.m.slot == w.cache)
      && (!SynthOutdated(s, w, s.threads[t].pc.made) && w.entry.value.source.FromMissing? ==>
            Interference(false, s.m) == w.interference)
  {
    hide Balanced;
    var w := s.threads[t].pc.w;
    assert PcSound(s.m, t, s.threads[t].pc);
    assert ThreadCounts(s.reread, s.m, s.threads[t]);
    hide Counts;
    GenerationInjective(w.bumps, s.m.past.bumps);
    WrapInjective(w.epochs, s.m.past.epochs);
    hide Wrap;
    hide GenerationAfter;
  }

  /** A returning synthesis retries exactly when something interfered since it started:
      over every run whose reads and syntheses outlive no policy generation. */
  lemma SynthesisRetriesExactlyOnInterference(n: nat, xs: seq<Action>, t: nat)
    requires PolicyBoundedRun(Init(false, n), xs)
    requires
      var s := Execute(Init(false, n), xs);
      At(s, t) && s.threads[t].pc.SynthBack? && Bounded(false, s.m, s.threads[t].pc.w)
    ensures
      var s := Execute(Init(false, n), xs);
      var w := s.threads[t].pc.w;
      SynthOutdated(s, w, s.threads[t].pc.made) <==> Interference(false, s.m) != w.interference
  {
    hide Balanced;
    var s := Execute(Init(false, n), xs);
    AlwaysCounts(false, n, xs);
    NothingUsedIsFreed(false, n, xs);
    AlwaysFitted(false, n, xs);
    AlwaysTagged(false, n, xs);
    assert xs[..|xs|] == xs;
    assert OpenWindow(s.threads[t].pc) == Some(s.threads[t].pc.w);
    assert PcSound(s.m, t, s.threads[t].pc);
    assert ThreadCounts(s.reread, s.m, s.threads[t]);
    SynthesisComparison(s, t);
    assert TaggedEntry(s.m.heap[s.threads[t].pc.w.cache.value].entry);
  }

  /** Thread `t` holds window `w` and the entry it made at `a`. */
  predicate InstallsExactlyWhenUndisturbed(s: State, t: nat, w: Window, a: Addr, synthesizes: bool) {
    var r := Step(s, SynthRelock(t, synthesizes));
    var installs := r.m.past.invalidations != s.m.past.invalidations;
    && a in s.m.heap && At(r, t)
    && (installs <==> s.m.past.epochs == w.epochs && s.m.past.bumps == w.bumps)
    && (installs ==>
          && s.m.slot == w.cache && w.entry.Some? && SlotEntry(s.m) == w.entry
          && w.entry.value.state.Missing? && w.entry.value.generation == s.m.generation
          && s.m.heap[a].entry.state.Valid? && s.m.heap[a].entry.generation == s.m.generation
          && r.m.slot == Some(a) && SlotEntry(r.m) == Some(s.m.heap[a].entry)
          && r.threads[t].pc == Holding(a, s.m.heap[a].entry))
    && (!installs ==> r.m.slot == s.m.slot && !r.threads[t].pc.SynthBack?)
  }

  /** A synthesizing thread that comes back installs what it made if and only if
      nothing was published, replaced or re-tagged since it started; it then
      replaces exactly the missing entry it started from, and both entries carry
      the current policy generation. */
  lemma SynthesisInstallsOverItsOwnEntry(n: nat, xs: seq<Action>, t: nat, synthesizes: bool)
    requires PolicyBoundedRun(Init(false, n), xs)
    requires
      var s := Execute(Init(false, n), xs);
      && At(s, t) && s.threads[t].pc.SynthBack? && s.threads[t].pc.made.Some?
      && Bounded(false, s.m, s.threads[t].pc.w)
    ensures
      var s := Execute(Init(false, n), xs);
      InstallsExactlyWhenUndisturbed(s, t, s.threads[t].pc.w, s.threads[t].pc.made.value, synthesizes)
  {
    hide Balanced;
    var s := Execute(Init(false, n), xs);
    AlwaysCounts(false, n, xs);
    NothingUsedIsFreed(false, n, xs);
    AlwaysFitted(false, n, xs);
    AlwaysTagged(false, n, xs);
    assert xs[..|xs|] == xs;
    assert OpenWindow(s.threads[t].pc) == Some(s.threads[t].pc.w);
    SynthRelockInstalls(s, t, synthesizes);
  }

  lemma SynthRelockInstalls(s: State, t: nat, synthesizes: bool)
    requires Alive(s) && Counts(s) && Tagged(s) && Fitted(s)
    requires At(s, t) && s.threads[t].pc.SynthBack? && s.threads[t].pc.made.Some?
    requires Bounded(false, s.m, s.threads[t].pc.w) && PolicyBounded(s.m, s.threads[t].pc.w)
    ensures InstallsExactlyWhenUndisturbed(s, t, s.threads[t].pc.w, s.threads[t].pc.made.value, synthesizes)
  {
    hide Balanced;
    hide Wrap;
    hide GenerationAfter;
    hide Locked;
    var w, a := s.threads[t].pc.w, s.threads[t].pc.made.value;
    assert PcSound(s.m, t, s.threads[t].pc);
    assert ThreadCounts(s.reread, s.m, s.threads[t]);
    assert TaggedPc(s.m.heap, s.threads[t].pc);
    SynthesisComparison(s, t);
    hide Counts;
    if SynthOutdated(s, w, Some(a)) {
      var s1 := DropBoth(CloseWindow(s, t, w), Some(a), w.cache);
      LockedCounters(s1, t, synthesizes);
      LockedTagged(s1, t, synthesizes);
      LockedKeepsTheSlot(s1, t, synthesizes);
    } else {
      assert TaggedEntry(s.m.heap[w.cache.value].entry);
      hide FinishSynthesis;
      InstallTakesTheSlot(s, t, w, a, synthesizes);
    }
  }

  lemma InstallTakesTheSlot(s: State, t: nat, w: Window, a: Addr, synthesizes: bool)
    requires Alive(s) && At(s, t) && s.threads[t].pc == SynthBack(w, Some(a)) && !SynthOutdated(s, w, Some(a))
    ensures
      var r := FinishSynthesis(s, t, w, Some(a), synthesizes);
      && a in s.m.heap && At(r, t)
      && r.m.slot == Some(a) && SlotEntry(r.m) == Some(s.m.heap[a].entry)
      && r.threads[t].pc == Holding(a, s.m.heap[a].entry)
      && r.m.past.invalidations == s.m.past.invalidations + 1
  {
    hide Balanced;
    hide Wrap;
    assert PcSound(s.m, t, s.threads[t].pc);
    assert PinsOf(s.threads[t].pc) == One(None) + One(w.cache) + One(Some(a));
    DropBothSection(s, t, w, None, Some(a));
    var s2 := DropBoth(CloseWindow(s, t, w), None, w.cache);
    assert One(Some(a))[a] == 1;
    InHeap(s2, One(Some(a)), a);
    hide SynthOutdated;
  }
}
