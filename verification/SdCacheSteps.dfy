/** How one step of the cache protocol looks from outside: whom it moves, what it keeps
    and what only grows. */
module SdCacheSteps {
  import opened Widths
  import opened SdCacheMachine
  import opened SdCacheReferences
  import opened SdCacheLifetimes

  function SlotEntry(m: Shared): Option<Entry> {
    if m.slot.Some? && m.slot.value in m.heap then Some(m.heap[m.slot.value].entry) else None
  }

  /** Only the heap changed, and the slot's entry survived. */
  lemma SlotEntryKept(s: State, r: State)
    requires Balanced(r, multiset{}) && Derived(s.m.heap, r.m.heap) && r.m.slot == s.m.slot
    ensures SlotEntry(r.m) == SlotEntry(s.m)
  {
    if r.m.slot.Some? {
      SlotInHeap(r);
    }
  }

  function OpenWindow(pc: Pc): Option<Window> {
    match pc
    case Reading(w) => Some(w)
    case ReadBack(w, _) => Some(w)
    case Synthesizing(w, _) => Some(w)
    case SynthBack(w, _) => Some(w)
    case _ => None
  }

  predicate ByThread(x: Action, t: nat) {
    !(x.SetSecurity? || x.PostSetxattr? || x.Invalidate? || x.BumpGeneration? || x.GracePeriod?) && x.t == t
  }

  lemma OutsideMovesNobody(s: State, x: Action)
    requires x.SetSecurity? || x.PostSetxattr? || x.Invalidate? || x.BumpGeneration? || x.GracePeriod?
    ensures Step(s, x).threads == s.threads
  {}

  lemma OthersDoNotMove(s: State, x: Action, t: nat)
    requires Alive(s) && At(s, t)
    requires !(x.SetSecurity? || x.PostSetxattr? || x.Invalidate? || x.BumpGeneration? || x.GracePeriod?)
    requires At(s, x.t) && x.t != t
    ensures At(Step(s, x), t) && Step(s, x).threads[t] == s.threads[t]
  {
    hide Balanced;
    if x.Deref? || x.RcuPin? || x.DropProbe? || x.Release? {
      FastShape(s, x);
    } else if x.Call? || x.ReadDone? || x.Relock? || x.SynthSnapshot? || x.SynthDone? || x.SynthRelock? {
      hide Lookup;
      LookupShape(s, x);
    } else {
      assert PcSound(s.m, x.t, s.threads[x.t].pc);
      PersistShape(s, x);
    }
  }

  lemma StepKeepsThreads(s: State, x: Action)
    requires Alive(s)
    ensures |Step(s, x).threads| == |s.threads|
  {
    hide Balanced;
    hide Fast;
    hide Lookup;
    hide Persist;
    hide Outside;
    if x.SetSecurity? || x.PostSetxattr? || x.Invalidate? || x.BumpGeneration? || x.GracePeriod? {
      OutsideShape(s, x);
    } else if !At(s, x.t) {
      NobodyActs(s, x);
    } else if x.Deref? || x.RcuPin? || x.DropProbe? || x.Release? {
      FastShape(s, x);
    } else if x.Call? || x.ReadDone? || x.Relock? || x.SynthSnapshot? || x.SynthDone? || x.SynthRelock? {
      LookupShape(s, x);
    } else {
      assert PcSound(s.m, x.t, s.threads[x.t].pc);
      PersistShape(s, x);
    }
  }

  lemma EntriesEvolve(s: State, x: Action)
    requires Alive(s)
    ensures Evolved(s.m.heap, Step(s, x).m.heap)
  {
    hide Balanced;
    hide Fast;
    hide Lookup;
    hide Persist;
    hide Outside;
    if x.SetSecurity? || x.PostSetxattr? || x.Invalidate? || x.BumpGeneration? || x.GracePeriod? {
      OutsideShape(s, x);
    } else if !At(s, x.t) {
      NobodyActs(s, x);
    } else if x.Deref? || x.RcuPin? || x.DropProbe? || x.Release? {
      FastShape(s, x);
    } else if x.Call? || x.ReadDone? || x.Relock? || x.SynthSnapshot? || x.SynthDone? || x.SynthRelock? {
      LookupShape(s, x);
    } else {
      assert PcSound(s.m, x.t, s.threads[x.t].pc);
      PersistShape(s, x);
    }
  }

  // ----- what never changes or only grows -----

  lemma RereadStays(s: State, x: Action)
    ensures Step(s, x).reread == s.reread
  {
    hide FinishRead;
    hide FinishSynthesis;
    hide Locked;
    hide Wrap;
    hide Ref;
    hide Unref;
    if x.Relock? && At(s, x.t) && s.threads[x.t].pc.ReadBack? {
      RelockKeepsReread(s, x.t, s.threads[x.t].pc.w, s.threads[x.t].pc.made, x.synthesizes);
    } else if x.SynthRelock? && At(s, x.t) && s.threads[x.t].pc.SynthBack? {
      SynthRelockKeepsReread(s, x.t, s.threads[x.t].pc.w, s.threads[x.t].pc.made, x.synthesizes);
    } else if x.Call? && At(s, x.t) {
      LockedKeepsReread(Enter(s, x.t), x.t, x.synthesizes);
    }
  }

  lemma LockedKeepsReread(s: State, t: nat, synthesizes: bool)
    requires At(s, t)
    ensures Locked(s, t, synthesizes).reread == s.reread
  {}

  lemma RelockKeepsReread(s: State, t: nat, w: Window, made: Option<Addr>, synthesizes: bool)
    requires At(s, t)
    ensures FinishRead(s, t, w, made, synthesizes).reread == s.reread
  {
    hide Locked;
    hide UnrefOption;
    hide ReadOutdated;
    hide SignedDiff;
    LockedKeepsReread(DropBoth(CloseWindow(s, t, w), made, w.cache), t, synthesizes);
  }

  lemma SynthRelockKeepsReread(s: State, t: nat, w: Window, made: Option<Addr>, synthesizes: bool)
    requires At(s, t)
    ensures FinishSynthesis(s, t, w, made, synthesizes).reread == s.reread
  {
    hide Locked;
    hide UnrefOption;
    hide SynthOutdated;
    LockedKeepsReread(DropBoth(CloseWindow(s, t, w), made, w.cache), t, synthesizes);
  }

  lemma {:induction false} RereadIsFixed(reread: bool, n: nat, xs: seq<Action>)
    ensures Execute(Init(reread, n), xs).reread == reread
  {
    if xs != [] {
      RereadIsFixed(reread, n, xs[..|xs| - 1]);
      RereadStays(Execute(Init(reread, n), xs[..|xs| - 1]), xs[|xs| - 1]);
    }
  }

  predicate Grows(m: Shared, m': Shared) {
    m.past.epochs <= m'.past.epochs && m.past.invalidations <= m'.past.invalidations && m.past.bumps <= m'.past.bumps
  }

  lemma CountersGrow(s: State, x: Action)
    ensures Grows(s.m, Step(s, x).m)
  {
    hide Wrap;
    hide Ref;
    hide Unref;
    hide LeaveRcu;
    hide ReadEntry;
    hide SynthEntry;
    hide PendingEntry;
    hide Persistable;
    hide NextGeneration;
    hide FinishRead;
    hide FinishSynthesis;
    hide Locked;
    if x.Relock? && At(s, x.t) && s.threads[x.t].pc.ReadBack? {
      FinishReadGrows(s, x.t, s.threads[x.t].pc.w, s.threads[x.t].pc.made, x.synthesizes);
    } else if x.SynthRelock? && At(s, x.t) && s.threads[x.t].pc.SynthBack? {
      FinishSynthesisGrows(s, x.t, s.threads[x.t].pc.w, s.threads[x.t].pc.made, x.synthesizes);
    } else if x.Call? && At(s, x.t) {
      LockedCounters(Enter(s, x.t), x.t, x.synthesizes);
    }
  }

  lemma FinishReadGrows(s: State, t: nat, w: Window, made: Option<Addr>, synthesizes: bool)
    requires At(s, t)
    ensures Grows(s.m, FinishRead(s, t, w, made, synthesizes).m)
  {
    hide UnrefOption;
    hide SignedDiff;
    hide ReadOutdated;
    hide Locked;
    hide Wrap;
    LockedCounters(DropBoth(CloseWindow(s, t, w), made, w.cache), t, synthesizes);
  }

  lemma FinishSynthesisGrows(s: State, t: nat, w: Window, made: Option<Addr>, synthesizes: bool)
    requires At(s, t)
    ensures Grows(s.m, FinishSynthesis(s, t, w, made, synthesizes).m)
  {
    hide UnrefOption;
    hide SynthOutdated;
    hide Locked;
    hide Wrap;
    LockedCounters(DropBoth(CloseWindow(s, t, w), made, w.cache), t, synthesizes);
  }

  lemma LockedCounters(s: State, t: nat, synthesizes: bool)
    requires At(s, t)
    ensures
      var r := Locked(s, t, synthesizes);
      r.m.past.epochs == s.m.past.epochs && r.m.past.invalidations == s.m.past.invalidations &&
      r.m.past.bumps == s.m.past.bumps
  {}

  lemma LockedKeepsTheSlot(s: State, t: nat, synthesizes: bool)
    requires At(s, t)
    ensures Locked(s, t, synthesizes).m.slot == s.m.slot
  {}

  lemma {:induction false} CountersGrowOver(reread: bool, n: nat, xs: seq<Action>, k: nat)
    requires k <= |xs|
    ensures Grows(Execute(Init(reread, n), xs[..k]).m, Execute(Init(reread, n), xs).m)
  {
    hide Step;
    if k == |xs| {
      assert xs[..k] == xs;
    } else {
      assert xs[..|xs| - 1][..k] == xs[..k];
      CountersGrowOver(reread, n, xs[..|xs| - 1], k);
      CountersGrow(Execute(Init(reread, n), xs[..|xs| - 1]), xs[|xs| - 1]);
    }
  }

  // ----- steps that move only references and claims -----

  /** Nothing the order depends on has changed. */
  predicate Plain(s: State, r: State, t: nat) {
    && At(s, t) && At(r, t)
    && r == s.(m := r.m, threads := r.threads)
    && Derived(s.m.heap, r.m.heap)
    && r.m == s.m.(heap := r.m.heap, pending := r.m.pending, works := r.m.works, persistQueued := r.m.persistQueued)
    && (r.threads[t] == s.threads[t] ||
        (r.threads[t] == s.threads[t].(pc := r.threads[t].pc) && OpenWindow(r.threads[t].pc).None?))
  }

  lemma FastStepIsPlain(s: State, x: Action)
    requires x.Deref? || x.RcuPin? || x.DropProbe? || x.Release?
    requires At(s, x.t)
    ensures Plain(s, Fast(s, x), x.t)
  {}

  lemma QueueStepIsPlain(s: State, x: Action)
    requires x.Claim? || x.QueuePersist? || x.PersistStart?
    requires At(s, x.t)
    ensures Plain(s, Persist(s, x), x.t)
  {}

  lemma WriteBackIsPlain(s: State, x: Action)
    requires x.PersistWritten? || x.Promote?
    requires At(s, x.t) && Persist(s, x).m.past.epochs == s.m.past.epochs
    ensures Plain(s, Persist(s, x), x.t)
  {
    var pc := s.threads[x.t].pc;
    if x.Promote? && pc.Promoting? {
      assert !PendingEntry(s.m, pc.bytes);
    } else if x.PersistWritten? && pc.PersistWriting? && x.at !in s.m.heap {
      assert !x.ok;
    } else {
      assert Persist(s, x) == s;
    }
  }
}
