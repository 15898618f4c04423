/** Where every cached descriptor's content came from, over every schedule: which read
    returned its bytes and when that read began, which synthesis made it, or which
    writer supplied it. */
module SdCacheContents {
  import opened Widths
  import opened Descriptors
  import opened SdCacheMachine
  import opened SdCacheReferences
  import opened SdCacheLifetimes
  import opened SdCacheSteps
  import opened SdCacheCounters
  import opened SdCacheOrder
  import opened SdCacheTheorems
  import opened SdCacheWork

  /** What the outcome of a finished action says about the entry it left at `a`. */
  predicate Says(x: Action, a: Addr, e: Entry) {
    match x
    case ReadDone(_, outcome, at) =>
      && at == a
      && (match outcome
          case ReadFailed => false
          case NoDescriptor => e.state.Missing? && e.source.FromMissing? && e.bytes == []
          case BadDescriptor => e.state.Corrupt? && e.source.FromCorrupt? && e.bytes == []
          case Stored(bytes) => e.state.Valid? && e.source.FromXattr? && e.bytes == bytes && e.origin.Read?)
    case SynthDone(_, outcome, at) =>
      && at == a
      && outcome.Synthesized? && e.state.Valid? && e.bytes == outcome.bytes
      && e.source == if outcome.persistent then SyntheticPending else Synthetic
    case SetSecurity(bytes, at) =>
      at == a && e.state.Valid? && e.source.FromXattr? && e.bytes == bytes && e.origin.Written?
    case PersistWritten(_, ok, at) =>
      at == a && ok && e.state.Valid? && e.source.FromXattr? && e.origin.Written?
    case _ => false
  }

  /** The thread whose action made an entry was at work on it. */
  predicate AtWork(s: State, x: Action, e: Entry) {
    match x
    case ReadDone(t, _, _) => At(s, t) && s.threads[t].pc.Reading? && e.origin == s.threads[t].pc.w.origin
    case SynthDone(t, _, _) => At(s, t) && s.threads[t].pc.Synthesizing? && e.origin == s.threads[t].pc.w.origin
    case PersistWritten(t, _, _) => At(s, t) && s.threads[t].pc == PersistWriting(e.bytes)
    case _ => true
  }

  // ----- one step -----

  /** An entry that a step allocates is what the step's outcome says. */
  lemma NewEntrySaid(s: State, x: Action, a: Addr)
    requires Alive(s) && a in Step(s, x).m.heap && a !in s.m.heap
    requires forall i :: 0 <= i < |s.threads| && s.threads[i].pc.Reading? ==> s.threads[i].pc.w.origin.Read?
    ensures Says(x, a, Step(s, x).m.heap[a].entry) && AtWork(s, x, Step(s, x).m.heap[a].entry)
  {
    hide Balanced;
    hide Fast;
    hide Lookup;
    hide Persist;
    hide Outside;
    hide Says;
    hide AtWork;
    if x.Deref? || x.RcuPin? || x.DropProbe? || x.Release? {
      FastAllocatesNothing(s, x);
    } else if x.Claim? || x.QueuePersist? || x.PersistStart? || x.PersistWritten? || x.Promote? {
      PersistAllocates(s, x, a);
    } else if x.Call? || x.Relock? || x.SynthRelock? {
      RelocksAllocateNothing(s, x);
    } else if x.ReadDone? || x.SynthSnapshot? || x.SynthDone? {
      DoneAllocates(s, x, a);
    } else {
      OutsideAllocates(s, x, a);
    }
  }

  lemma DoneAllocates(s: State, x: Action, a: Addr)
    requires x.ReadDone? || x.SynthSnapshot? || x.SynthDone?
    requires a in Lookup(s, x).m.heap && a !in s.m.heap
    requires forall i :: 0 <= i < |s.threads| && s.threads[i].pc.Reading? ==> s.threads[i].pc.w.origin.Read?
    ensures Says(x, a, Lookup(s, x).m.heap[a].entry) && AtWork(s, x, Lookup(s, x).m.heap[a].entry)
  {}

  lemma OutsideAllocates(s: State, x: Action, a: Addr)
    requires x.SetSecurity? || x.PostSetxattr? || x.Invalidate? || x.BumpGeneration? || x.GracePeriod?
    requires a in Outside(s, x).m.heap && a !in s.m.heap
    ensures Says(x, a, Outside(s, x).m.heap[a].entry) && AtWork(s, x, Outside(s, x).m.heap[a].entry)
  {
    hide Wrap;
    hide Readers;
  }

  lemma PersistAllocates(s: State, x: Action, a: Addr)
    requires x.Claim? || x.QueuePersist? || x.PersistStart? || x.PersistWritten? || x.Promote?
    requires a in Persist(s, x).m.heap && a !in s.m.heap
    ensures Says(x, a, Persist(s, x).m.heap[a].entry) && AtWork(s, x, Persist(s, x).m.heap[a].entry)
  {
    hide Wrap;
  }

  /** A window over an entry that says the descriptor is missing. */
  predicate OverMissing(w: Window) {
    w.cache.Some? && w.entry.Some? && w.entry.value.state.Missing? && w.origin == w.entry.value.origin
  }

  /** How a section under the mutex leaves thread `t`: reading from now on,
      synthesizing over a missing entry, or with an entry. */
  predicate Leaves(s: State, r: State, t: nat, synthesizes: bool) {
    && At(s, t) && At(r, t)
    && var pc := r.threads[t].pc;
       match pc
       case Idle => true
       case Reading(w) => w.origin == Read(s.m.past.clock)
       case Synthesizing(w, tag) => OverMissing(w) && synthesizes && !s.reread && tag.None?
       case Holding(_, e) => !(e.state.Missing? && synthesizes && !s.reread)
       case _ => false
  }

  lemma AfterPopulateLeaves(s: State, t: nat, a: Addr, synthesizes: bool)
    requires At(s, t)
    ensures Leaves(s, AfterPopulate(s, t, a, synthesizes), t, synthesizes)
  {}

  lemma LockedLeaves(s: State, t: nat, synthesizes: bool)
    requires At(s, t)
    ensures Leaves(s, Locked(s, t, synthesizes), t, synthesizes)
  {}

  lemma FinishReadLeaves(s: State, t: nat, w: Window, made: Option<Addr>, synthesizes: bool)
    requires At(s, t)
    ensures Leaves(s, FinishRead(s, t, w, made, synthesizes), t, synthesizes)
  {
    hide Locked;
    hide AfterPopulate;
    hide Wrap;
    hide UnrefOption;
    hide SignedDiff;
    hide ReadOutdated;
    var s1 := CloseWindow(s, t, w);
    if ReadOutdated(s, w) {
      LockedLeaves(DropBoth(s1, made, w.cache), t, synthesizes);
    } else if made.Some? {
      if ReusePublished(s, w) {
        AfterPopulateLeaves(DropBoth(s1, made, w.cache), t, s.m.slot.value, synthesizes);
      } else {
        AfterPopulateLeaves(DropBoth(PublishRead(s1, w, made.value), None, w.cache), t, made.value, synthesizes);
      }
    }
  }

  lemma FinishSynthesisLeaves(s: State, t: nat, w: Window, made: Option<Addr>, synthesizes: bool)
    requires Alive(s) && Tagged(s) && At(s, t) && s.threads[t].pc == SynthBack(w, made)
    ensures Leaves(s, FinishSynthesis(s, t, w, made, synthesizes), t, synthesizes)
  {
    hide Balanced;
    hide Locked;
    hide Wrap;
    if SynthOutdated(s, w, made) {
      hide UnrefOption;
      LockedLeaves(DropBoth(CloseWindow(s, t, w), made, w.cache), t, synthesizes);
    } else if made.Some? {
      assert TaggedPc(s.m.heap, s.threads[t].pc);
      InstallTakesTheSlot(s, t, w, made.value, synthesizes);
    }
  }

  /** A lookup that has the mutex leaves its thread reading from now on, synthesizing
      over a missing entry, or with an entry that needs no synthesis. */
  lemma LookupLeaves(s: State, x: Action)
    requires Alive(s) && Tagged(s)
    requires x.Call? || x.Relock? || x.SynthRelock?
    requires At(s, x.t)
    ensures At(Step(s, x), x.t)
    ensures
      || Step(s, x).threads[x.t] == s.threads[x.t]
      || (!s.threads[x.t].pc.Reading? && Leaves(s, Step(s, x), x.t, x.synthesizes))
  {
    hide Balanced;
    hide Locked;
    hide FinishRead;
    hide FinishSynthesis;
    var t, pc := x.t, s.threads[x.t].pc;
    if x.Call? && pc.Idle? {
      LockedLeaves(Enter(s, t), t, x.synthesizes);
    } else if x.Relock? && pc.ReadBack? {
      FinishReadLeaves(s, t, pc.w, pc.made, x.synthesizes);
    } else if x.SynthRelock? && pc.SynthBack? {
      FinishSynthesisLeaves(s, t, pc.w, pc.made, x.synthesizes);
    }
  }

  /** How a step may start a read, a synthesis or a write-back. */
  predicate Begins(s: State, x: Action, t: nat) {
    && At(s, t) && At(Step(s, x), t)
    && var from, to := s.threads[t].pc, Step(s, x).threads[t].pc;
       && (to.Reading? && to != from ==> !from.Reading? && ByThread(x, t) && to.w.origin == Read(s.m.past.clock))
       && (to.ReadBack? && to != from ==> from.Reading? && from.w == to.w && x.ReadDone? && x.t == t)
       && (to.Synthesizing? && to != from ==>
             OverMissing(to.w) || (from.Synthesizing? && from.w == to.w))
       && (to.SynthBack? && to != from ==> from.Synthesizing? && from.w == to.w)
       && (to.Claimed? && to != from ==> from == Holding(to.a, to.e) && to.e.source.SyntheticPending?)
       && (to.PersistWriting? && to != from ==>
             && SlotEntry(s.m).Some? && SlotEntry(s.m).value.source.SyntheticPending?
             && SlotEntry(s.m).value.bytes == to.bytes)
  }

  lemma ActorBegins(s: State, x: Action)
    requires !(x.SetSecurity? || x.PostSetxattr? || x.Invalidate? || x.BumpGeneration? || x.GracePeriod?)
    requires Alive(s) && Tagged(s) && At(s, x.t)
    ensures Begins(s, x, x.t)
  {
    hide Balanced;
    hide Fast;
    hide Lookup;
    hide Persist;
    if x.Deref? || x.RcuPin? || x.DropProbe? || x.Release? {
      FastStepIsPlain(s, x);
      FastBeginsNothing(s, x);
    } else if x.Call? || x.Relock? || x.SynthRelock? {
      LookupLeaves(s, x);
    } else if x.ReadDone? || x.SynthSnapshot? || x.SynthDone? {
      DoneBegins(s, x);
    } else {
      PersistBegins(s, x);
    }
  }

  lemma DoneBegins(s: State, x: Action)
    requires x.ReadDone? || x.SynthSnapshot? || x.SynthDone?
    requires At(s, x.t)
    ensures At(Lookup(s, x), x.t)
    ensures
      var from, to := s.threads[x.t].pc, Lookup(s, x).threads[x.t].pc;
      || to == from
      || (x.ReadDone? && from.Reading? && to.ReadBack? && to.w == from.w)
      || (x.SynthSnapshot? && from.Synthesizing? && to.Synthesizing? && to.w == from.w)
      || (x.SynthDone? && from.Synthesizing? && to.SynthBack? && to.w == from.w)
  {
    hide ReadEntry;
    hide SynthEntry;
  }

  lemma FastBeginsNothing(s: State, x: Action)
    requires x.Deref? || x.RcuPin? || x.DropProbe? || x.Release?
    requires At(s, x.t)
    ensures
      var to := Fast(s, x).threads[x.t];
      (!to.pc.PersistWriting? && !to.pc.Claimed?) || to == s.threads[x.t]
  {}

  lemma PersistBegins(s: State, x: Action)
    requires x.Claim? || x.QueuePersist? || x.PersistStart? || x.PersistWritten? || x.Promote?
    requires At(s, x.t)
    ensures At(Persist(s, x), x.t)
    ensures
      var from, to := s.threads[x.t].pc, Persist(s, x).threads[x.t].pc;
      && (OpenWindow(to).None? || to == from)
      && (to.Claimed? && to != from ==> from == Holding(to.a, to.e) && to.e.source.SyntheticPending?)
      && (to.PersistWriting? && to != from ==>
            && SlotEntry(s.m).Some? && SlotEntry(s.m).value.source.SyntheticPending?
            && SlotEntry(s.m).value.bytes == to.bytes)
  {
    hide Wrap;
  }

  lemma StepBegins(s: State, x: Action, t: nat)
    requires Alive(s) && Tagged(s) && At(s, t)
    ensures Begins(s, x, t)
  {
    hide Balanced;
    hide Act;
    StepKeepsThreads(s, x);
    if x.SetSecurity? || x.PostSetxattr? || x.Invalidate? || x.BumpGeneration? || x.GracePeriod? {
      OutsideMovesNobody(s, x);
    } else if !At(s, x.t) {
      NobodyActs(s, x);
    } else if x.t == t {
      ActorBegins(s, x);
    } else {
      OthersDoNotMove(s, x, t);
    }
  }

  // ----- clocks -----

  /** Time and the latest hook, as a section leaves them; it may have replaced. */
  predicate SameTime(m: Shared, m': Shared) {
    && m'.past.clock == m.past.clock && m'.past.lastHook == m.past.lastHook
    && (m'.past.lastReplace == m.past.lastReplace || m'.past.lastReplace == m.past.clock)
  }

  /** The action supplies a descriptor from outside, or says that the stored one may
      have changed. */
  predicate Outdates(s: State, x: Action) {
    || x.PostSetxattr? || x.Invalidate?
    || (x.SetSecurity? && x.at !in s.m.heap)
    || (x.PersistWritten? && x.ok && x.at !in s.m.heap && At(s, x.t) && s.threads[x.t].pc.PersistWriting?)
  }

  lemma LockedTakesNoTime(s: State, t: nat, synthesizes: bool)
    requires At(s, t)
    ensures SameTime(s.m, Locked(s, t, synthesizes).m)
  {}

  lemma AfterPopulateTakesNoTime(s: State, t: nat, a: Addr, synthesizes: bool)
    requires At(s, t)
    ensures SameTime(s.m, AfterPopulate(s, t, a, synthesizes).m)
  {}

  lemma FinishReadTakesNoTime(s: State, t: nat, w: Window, made: Option<Addr>, synthesizes: bool)
    requires At(s, t)
    ensures SameTime(s.m, FinishRead(s, t, w, made, synthesizes).m)
  {
    hide UnrefOption;
    hide SignedDiff;
    hide ReadOutdated;
    hide Locked;
    hide Wrap;
    hide AfterPopulate;
    var s1 := CloseWindow(s, t, w);
    LockedTakesNoTime(DropBoth(s1, made, w.cache), t, synthesizes);
    if s.m.slot.Some? {
      AfterPopulateTakesNoTime(DropBoth(s1, made, w.cache), t, s.m.slot.value, synthesizes);
    }
    if made.Some? {
      AfterPopulateTakesNoTime(DropBoth(PublishRead(s1, w, made.value), None, w.cache), t, made.value, synthesizes);
    }
  }

  lemma FinishSynthesisTakesNoTime(s: State, t: nat, w: Window, made: Option<Addr>, synthesizes: bool)
    requires At(s, t)
    ensures SameTime(s.m, FinishSynthesis(s, t, w, made, synthesizes).m)
  {
    hide UnrefOption;
    hide SynthOutdated;
    hide Locked;
    hide Wrap;
    LockedTakesNoTime(DropBoth(CloseWindow(s, t, w), made, w.cache), t, synthesizes);
  }

  lemma PersistTicks(s: State, x: Action)
    requires x.Claim? || x.QueuePersist? || x.PersistStart? || x.PersistWritten? || x.Promote?
    ensures
      var m' := Persist(s, x).m;
      && m'.past.clock == s.m.past.clock
      && m'.past.lastHook == (if Outdates(s, x) then s.m.past.clock else s.m.past.lastHook)
      && (m'.past.lastReplace == s.m.past.lastReplace || m'.past.lastReplace == s.m.past.clock)
      && (Outdates(s, x) ==> m'.past.lastReplace == s.m.past.clock)
  {
    hide Wrap;
    hide Unref;
    hide Readers;
    hide PendingEntry;
    hide Persistable;
  }

  lemma OutsideTicks(s: State, x: Action)
    requires x.SetSecurity? || x.PostSetxattr? || x.Invalidate? || x.BumpGeneration? || x.GracePeriod?
    ensures
      var m' := Outside(s, x).m;
      && m'.past.clock == s.m.past.clock
      && m'.past.lastHook == (if Outdates(s, x) then s.m.past.clock else s.m.past.lastHook)
      && m'.past.lastReplace == (if Outdates(s, x) then s.m.past.clock else s.m.past.lastReplace)
  {
    hide Wrap;
    hide Unref;
    hide Readers;
  }

  lemma LookupTicks(s: State, x: Action)
    requires x.Call? || x.ReadDone? || x.Relock? || x.SynthSnapshot? || x.SynthDone? || x.SynthRelock?
    ensures SameTime(s.m, Lookup(s, x).m)
  {
    hide FinishRead;
    hide FinishSynthesis;
    hide Locked;
    hide ReadEntry;
    hide SynthEntry;
    if At(s, x.t) {
      var pc := s.threads[x.t].pc;
      if x.Relock? && pc.ReadBack? {
        FinishReadTakesNoTime(s, x.t, pc.w, pc.made, x.synthesizes);
      } else if x.SynthRelock? && pc.SynthBack? {
        FinishSynthesisTakesNoTime(s, x.t, pc.w, pc.made, x.synthesizes);
      } else if x.Call? {
        LockedTakesNoTime(Enter(s, x.t), x.t, x.synthesizes);
      }
    }
  }

  lemma StepTakesOneTick(s: State, x: Action)
    ensures Step(s, x).m.past.clock == s.m.past.clock + 1
    ensures Step(s, x).m.past.lastHook == (if Outdates(s, x) then s.m.past.clock else s.m.past.lastHook)
    ensures Step(s, x).m.past.lastReplace == s.m.past.lastReplace || Step(s, x).m.past.lastReplace == s.m.past.clock
    ensures Outdates(s, x) ==> Step(s, x).m.past.lastReplace == s.m.past.clock
  {
    hide Fast;
    hide Lookup;
    hide Persist;
    hide Outside;
    if x.Deref? || x.RcuPin? || x.DropProbe? || x.Release? {
      if At(s, x.t) {
        FastStepIsPlain(s, x);
      } else {
        NobodyActs(s, x);
      }
    } else if x.Call? || x.ReadDone? || x.Relock? || x.SynthSnapshot? || x.SynthDone? || x.SynthRelock? {
      LookupTicks(s, x);
    } else if x.Claim? || x.QueuePersist? || x.PersistStart? || x.PersistWritten? || x.Promote? {
      PersistTicks(s, x);
    } else {
      OutsideTicks(s, x);
    }
  }

  // ----- whole runs -----

  /** Where a run stands before its action `i`. */
  function Before(s0: State, xs: seq<Action>, i: nat): State
    requires i <= |xs|
  {
    Execute(s0, xs[..i])
  }

  lemma BeforePrefix(s0: State, xs: seq<Action>, k: nat, i: nat)
    requires i <= k <= |xs|
    ensures Before(s0, xs[..k], i) == Before(s0, xs, i)
  {
    assert xs[..k][..i] == xs[..i];
  }

  lemma BeforeEnd(s0: State, xs: seq<Action>)
    ensures Before(s0, xs, |xs|) == Execute(s0, xs)
  {
    assert xs[..|xs|] == xs;
  }

  /** The clock counts the actions of a run, and no action that outdates what was read
      is later than the latest hook and the latest replacement. */
  lemma {:induction false} HooksAreRemembered(reread: bool, n: nat, xs: seq<Action>)
    ensures
      var past := Execute(Init(reread, n), xs).m.past;
      && past.clock == |xs| + 1 && past.lastHook < past.clock && past.lastReplace < past.clock
      && forall h :: 0 <= h < |xs| && Outdates(Before(Init(reread, n), xs, h), xs[h]) ==>
           h < past.lastHook && h < past.lastReplace
  {
    hide Step;
    hide Outdates;
    if xs != [] {
      var s0, ys := Init(reread, n), xs[..|xs| - 1];
      HooksAreRemembered(reread, n, ys);
      StepTakesOneTick(Execute(s0, ys), xs[|xs| - 1]);
      forall h | 0 <= h < |xs| && Outdates(Before(s0, xs, h), xs[h])
        ensures h < Execute(s0, xs).m.past.lastHook && h < Execute(s0, xs).m.past.lastReplace
      {
        if h < |ys| {
          BeforePrefix(s0, xs, |ys|, h);
          assert ys[h] == xs[h];
        }
      }
    }
  }

  /** Action `k` made entry `e` at `a`, which was free. */
  predicate MadeAt(s0: State, xs: seq<Action>, k: nat, a: Addr, e: Entry) {
    && k < |xs|
    && a !in Before(s0, xs, k).m.heap
    && Sees(Before(s0, xs, k + 1).m.heap, a, e)
    && Says(xs[k], a, e) && AtWork(Before(s0, xs, k), xs[k], e)
  }

  /** ... and it has been there ever since. */
  predicate Since(s0: State, xs: seq<Action>, k: nat, a: Addr, e: Entry) {
    && MadeAt(s0, xs, k, a, e)
    && forall i :: k < i <= |xs| ==> Sees(Before(s0, xs, i).m.heap, a, e)
  }

  /** Thread `t` has been reading since its action `j`, and reads in the same window. */
  predicate ReadingSince(s0: State, xs: seq<Action>, t: nat, j: nat, w: Window) {
    && j < |xs|
    && ByThread(xs[j], t)
    && At(Before(s0, xs, j), t) && !Before(s0, xs, j).threads[t].pc.Reading?
    && w.origin == Read(j + 1)
    && forall i :: j < i <= |xs| ==> At(Before(s0, xs, i), t) && Before(s0, xs, i).threads[t].pc == Reading(w)
  }

  /** A thread's read ran from its action `j` to its action `k`. */
  predicate ReadBetween(s0: State, xs: seq<Action>, j: nat, k: nat) {
    && j < k < |xs| && xs[k].ReadDone?
    && At(Before(s0, xs, k), xs[k].t) && Before(s0, xs, k).threads[xs[k].t].pc.Reading?
    && ReadingSince(s0, xs[..k], xs[k].t, j, Before(s0, xs, k).threads[xs[k].t].pc.w)
  }

  predicate OwnRead(s0: State, xs: seq<Action>, t: nat, j: nat, k: nat) {
    ReadBetween(s0, xs, j, k) && xs[k].t == t
  }

  /** A synthesis that made these bytes to be written back. */
  predicate SynthesizedBefore(xs: seq<Action>, bytes: Bytes) {
    exists k :: 0 <= k < |xs| && xs[k].SynthDone? && xs[k].synth == Synthesized(bytes, true)
  }

  /** Why thread `t` does what it does. */
  ghost predicate Accounted(s0: State, xs: seq<Action>, t: nat, pc: Pc) {
    match pc
    case Reading(w) => exists j :: ReadingSince(s0, xs, t, j, w)
    case ReadBack(w, _) => exists j: nat, k: nat :: OwnRead(s0, xs, t, j, k) && w.origin == Read(j + 1)
    case Synthesizing(w, _) => OverMissing(w)
    case SynthBack(w, _) => OverMissing(w)
    case Claimed(_, e) => SynthesizedBefore(xs, e.bytes)
    case PersistWriting(bytes) => SynthesizedBefore(xs, bytes)
    case _ => true
  }

  ghost predicate Explained(s0: State, xs: seq<Action>) {
    var s := Execute(s0, xs);
    && (forall a :: a in s.m.heap ==> exists k :: Since(s0, xs, k, a, s.m.heap[a].entry))
    && (forall i :: 0 <= i < |s.threads| ==> Accounted(s0, xs, i, s.threads[i].pc))
  }

  lemma SinceGrows(s0: State, xs: seq<Action>, k: nat, a: Addr, e: Entry)
    requires xs != [] && Since(s0, xs[..|xs| - 1], k, a, e) && Sees(Execute(s0, xs).m.heap, a, e)
    ensures Since(s0, xs, k, a, e)
  {
    hide Step;
    hide Says;
    hide AtWork;
    BeforeEnd(s0, xs);
    BeforePrefix(s0, xs, |xs| - 1, k);
    BeforePrefix(s0, xs, |xs| - 1, k + 1);
    forall i | k < i <= |xs| ensures Sees(Before(s0, xs, i).m.heap, a, e) {
      if i < |xs| {
        BeforePrefix(s0, xs, |xs| - 1, i);
      }
    }
  }

  lemma MadeNow(s0: State, xs: seq<Action>, a: Addr, e: Entry)
    requires xs != [] && a !in Execute(s0, xs[..|xs| - 1]).m.heap && Sees(Execute(s0, xs).m.heap, a, e)
    requires Says(xs[|xs| - 1], a, e) && AtWork(Execute(s0, xs[..|xs| - 1]), xs[|xs| - 1], e)
    ensures Since(s0, xs, |xs| - 1, a, e)
  {
    hide Step;
    hide Says;
    hide AtWork;
    BeforeEnd(s0, xs);
  }

  lemma ReadingGrows(s0: State, xs: seq<Action>, t: nat, j: nat, w: Window)
    requires xs != [] && ReadingSince(s0, xs[..|xs| - 1], t, j, w)
    requires At(Execute(s0, xs), t) && Execute(s0, xs).threads[t].pc == Reading(w)
    ensures ReadingSince(s0, xs, t, j, w)
  {
    hide Step;
    BeforeEnd(s0, xs);
    BeforePrefix(s0, xs, |xs| - 1, j);
    forall i | j < i <= |xs| ensures At(Before(s0, xs, i), t) && Before(s0, xs, i).threads[t].pc == Reading(w) {
      if i < |xs| {
        BeforePrefix(s0, xs, |xs| - 1, i);
      }
    }
  }

  lemma ReadsNow(s0: State, xs: seq<Action>, t: nat, w: Window)
    requires xs != [] && ByThread(xs[|xs| - 1], t) && w.origin == Read(|xs|)
    requires At(Execute(s0, xs[..|xs| - 1]), t) && !Execute(s0, xs[..|xs| - 1]).threads[t].pc.Reading?
    requires At(Execute(s0, xs), t) && Execute(s0, xs).threads[t].pc == Reading(w)
    ensures ReadingSince(s0, xs, t, |xs| - 1, w)
  {
    hide Step;
    BeforeEnd(s0, xs);
  }

  lemma ReadBetweenPrefix(s0: State, xs: seq<Action>, q: nat, j: nat, k: nat)
    requires q <= |xs| && ReadBetween(s0, xs[..q], j, k)
    ensures ReadBetween(s0, xs, j, k)
  {
    hide ReadingSince;
    hide Step;
    BeforePrefix(s0, xs, q, k);
    assert xs[..q][..k] == xs[..k];
  }

  lemma OwnReadGrows(s0: State, xs: seq<Action>, t: nat, j: nat, k: nat)
    requires xs != [] && OwnRead(s0, xs[..|xs| - 1], t, j, k)
    ensures OwnRead(s0, xs, t, j, k)
  {
    ReadBetweenPrefix(s0, xs, |xs| - 1, j, k);
  }

  lemma ReadEndsNow(s0: State, xs: seq<Action>, t: nat, j: nat, w: Window)
    requires xs != [] && ReadingSince(s0, xs[..|xs| - 1], t, j, w)
    requires xs[|xs| - 1].ReadDone? && xs[|xs| - 1].t == t
    ensures OwnRead(s0, xs, t, j, |xs| - 1) && w.origin == Read(j + 1)
  {
    hide Step;
    BeforeEnd(s0, xs[..|xs| - 1]);
    BeforePrefix(s0, xs, |xs| - 1, |xs| - 1);
    assert Before(s0, xs[..|xs| - 1], |xs| - 1).threads[t].pc == Reading(w);
  }

  lemma SynthesizedGrows(xs: seq<Action>, bytes: Bytes)
    requires xs != [] && SynthesizedBefore(xs[..|xs| - 1], bytes)
    ensures SynthesizedBefore(xs, bytes)
  {
    var ys := xs[..|xs| - 1];
    var k :| 0 <= k < |ys| && ys[k].SynthDone? && ys[k].synth == Synthesized(bytes, true);
    assert xs[k] == ys[k];
  }

  /** A pending entry's bytes were synthesized to be written back. */
  lemma PendingWasSynthesized(s0: State, xs: seq<Action>, k: nat, a: Addr, e: Entry)
    requires Since(s0, xs, k, a, e) && e.source.SyntheticPending?
    ensures SynthesizedBefore(xs, e.bytes)
  {
    assert xs[k].SynthDone? && xs[k].synth == Synthesized(e.bytes, true);
  }

  lemma EntryStaysExplained(s0: State, xs: seq<Action>, a: Addr)
    requires xs != [] && Explained(s0, xs[..|xs| - 1]) && Alive(Execute(s0, xs[..|xs| - 1]))
    requires a in Execute(s0, xs).m.heap
    ensures exists k :: Since(s0, xs, k, a, Execute(s0, xs).m.heap[a].entry)
  {
    hide Balanced;
    hide Step;
    var ys := xs[..|xs| - 1];
    var s, x, e := Execute(s0, ys), xs[|xs| - 1], Execute(s0, xs).m.heap[a].entry;
    if a in s.m.heap {
      EntriesEvolve(s, x);
      var k :| Since(s0, ys, k, a, s.m.heap[a].entry);
      SinceGrows(s0, xs, k, a, e);
    } else {
      ReadsHaveBegun(s0, ys);
      NewEntrySaid(s, x, a);
      hide AtWork;
      hide Says;
      MadeNow(s0, xs, a, e);
    }
  }

  lemma ReadsHaveBegun(s0: State, xs: seq<Action>)
    requires Explained(s0, xs)
    ensures
      var s := Execute(s0, xs);
      forall i :: 0 <= i < |s.threads| && s.threads[i].pc.Reading? ==> s.threads[i].pc.w.origin.Read?
  {
    var s := Execute(s0, xs);
    forall i | 0 <= i < |s.threads| && s.threads[i].pc.Reading? ensures s.threads[i].pc.w.origin.Read? {
      assert Accounted(s0, xs, i, s.threads[i].pc);
    }
  }

  lemma ThreadStaysAccounted(s0: State, xs: seq<Action>, t: nat)
    requires xs != [] && Explained(s0, xs[..|xs| - 1])
    requires
      var s := Execute(s0, xs[..|xs| - 1]);
      Alive(s) && At(s, t) && Begins(s, xs[|xs| - 1], t) && s.m.past.clock == |xs|
    ensures At(Execute(s0, xs), t) && Accounted(s0, xs, t, Execute(s0, xs).threads[t].pc)
  {
    hide Balanced;
    hide Step;
    hide ReadingSince;
    hide ReadBetween;
    hide Since;
    hide SynthesizedBefore;
    var ys := xs[..|xs| - 1];
    var s := Execute(s0, ys);
    var from, to := s.threads[t].pc, Execute(s0, xs).threads[t].pc;
    assert Accounted(s0, ys, t, from);
    match to
    case Reading(w) =>
      if from == to {
        var j :| ReadingSince(s0, ys, t, j, w);
        ReadingGrows(s0, xs, t, j, w);
      } else {
        ReadsNow(s0, xs, t, w);
      }
    case ReadBack(w, _) =>
      if from == to {
        var j: nat, k: nat :| OwnRead(s0, ys, t, j, k) && w.origin == Read(j + 1);
        OwnReadGrows(s0, xs, t, j, k);
      } else {
        assert from == Reading(w);
        var j :| ReadingSince(s0, ys, t, j, w);
        ReadEndsNow(s0, xs, t, j, w);
      }
    case Claimed(a, e) =>
      if from != to {
        assert PcSound(s.m, t, from);
        var k :| Since(s0, ys, k, a, s.m.heap[a].entry);
        PendingWasSynthesized(s0, ys, k, a, e);
      }
      SynthesizedGrows(xs, e.bytes);
    case PersistWriting(bytes) =>
      if from == to {
        SynthesizedGrows(xs, bytes);
      } else {
        var a := s.m.slot.value;
        var k :| Since(s0, ys, k, a, s.m.heap[a].entry);
        PendingWasSynthesized(s0, ys, k, a, s.m.heap[a].entry);
        SynthesizedGrows(xs, bytes);
      }
    case _ =>
  }

  lemma {:induction false} AlwaysExplained(reread: bool, n: nat, xs: seq<Action>)
    ensures Explained(Init(reread, n), xs)
  {
    hide Balanced;
    hide Step;
    hide Begins;
    hide Since;
    hide Tagged;
    if xs != [] {
      var s0, ys := Init(reread, n), xs[..|xs| - 1];
      var s, x := Execute(s0, ys), xs[|xs| - 1];
      AlwaysExplained(reread, n, ys);
      NothingUsedIsFreed(reread, n, ys);
      AlwaysTagged(reread, n, ys);
      HooksAreRemembered(reread, n, ys);
      StepKeepsThreads(s, x);
      forall a | a in Execute(s0, xs).m.heap
        ensures exists k :: Since(s0, xs, k, a, Execute(s0, xs).m.heap[a].entry)
      {
        EntryStaysExplained(s0, xs, a);
      }
      forall i | 0 <= i < |Execute(s0, xs).threads|
        ensures Accounted(s0, xs, i, Execute(s0, xs).threads[i].pc)
      {
        StepBegins(s, x, i);
        ThreadStaysAccounted(s0, xs, i);
      }
    }
  }

  // ----- what the cache says -----

  /** An entry that a read made carries the time the read began. */
  lemma ReadMadeIt(reread: bool, n: nat, xs: seq<Action>, k: nat, a: Addr, e: Entry) returns (j: nat)
    requires MadeAt(Init(reread, n), xs, k, a, e) && xs[k].ReadDone?
    ensures ReadBetween(Init(reread, n), xs, j, k) && e.origin == Read(j + 1)
  {
    hide Step;
    AlwaysExplained(reread, n, xs[..k]);
    var s, t := Before(Init(reread, n), xs, k), xs[k].t;
    assert Accounted(Init(reread, n), xs[..k], t, s.threads[t].pc);
    j :| ReadingSince(Init(reread, n), xs[..k], t, j, s.threads[t].pc.w);
  }

  /** Only a missing descriptor is synthesized: whatever a synthesizing thread works
      over, a read that found no descriptor made it, and it still lies where it did. */
  lemma SynthesisStartsFromAMissingRead(reread: bool, n: nat, xs: seq<Action>, t: nat) returns (k: nat)
    requires
      var s := Execute(Init(reread, n), xs);
      At(s, t) && (s.threads[t].pc.Synthesizing? || s.threads[t].pc.SynthBack?)
    ensures
      var w := Execute(Init(reread, n), xs).threads[t].pc.w;
      && w.cache.Some? && w.entry.Some?
      && Since(Init(reread, n), xs, k, w.cache.value, w.entry.value)
      && xs[k].ReadDone? && xs[k].outcome.NoDescriptor?
      && w.origin == w.entry.value.origin
  {
    hide Balanced;
    hide Step;
    var s0 := Init(reread, n);
    var s := Execute(s0, xs);
    AlwaysExplained(reread, n, xs);
    NothingUsedIsFreed(reread, n, xs);
    assert PcSound(s.m, t, s.threads[t].pc);
    assert Accounted(s0, xs, t, s.threads[t].pc);
    var a := s.threads[t].pc.w.cache.value;
    k :| Since(s0, xs, k, a, s.m.heap[a].entry);
  }

  /** What a finished read tells a lookup that gets `e` because of it: the stored bytes,
      that they are corrupt, or that there are none, in which case the entry says so or
      holds what a later synthesis made. */
  predicate Tells(xs: seq<Action>, k: nat, e: Entry) {
    && k < |xs| && xs[k].ReadDone?
    && match xs[k].outcome
       case ReadFailed => false
       case Stored(bytes) => e.state.Valid? && e.source.FromXattr? && e.bytes == bytes
       case BadDescriptor => e.state.Corrupt? && e.bytes == []
       case NoDescriptor =>
         || (e.state.Missing? && e.bytes == [])
         || (&& e.state.Valid? && (e.source.Synthetic? || e.source.SyntheticPending?)
             && exists q :: k < q < |xs| && xs[q].SynthDone? &&
                            xs[q].synth == Synthesized(e.bytes, e.source.SyntheticPending?))
  }

  /** Where the bytes of an entry that no read accounts for come from. */
  predicate WrittenBy(xs: seq<Action>, k: nat, e: Entry) {
    && k < |xs| && e.state.Valid? && e.source.FromXattr?
    && match xs[k]
       case SetSecurity(bytes, _) => e.bytes == bytes
       case PersistWritten(_, ok, _) => ok && SynthesizedBefore(xs[..k], e.bytes)
       case _ => false
  }

  /** The read an entry in the heap goes back to, if any. */
  lemma EntryGoesBackToARead(reread: bool, n: nat, xs: seq<Action>, a: Addr) returns (j: nat, k: nat)
    requires
      var h := Execute(Init(reread, n), xs).m.heap;
      a in h && h[a].entry.origin.Read?
    ensures
      var e := Execute(Init(reread, n), xs).m.heap[a].entry;
      ReadBetween(Init(reread, n), xs, j, k) && Tells(xs, k, e) && e.origin == Read(j + 1)
  {
    hide Step;
    hide ReadBetween;
    var s0 := Init(reread, n);
    var e := Execute(s0, xs).m.heap[a].entry;
    AlwaysExplained(reread, n, xs);
    var q: nat :| Since(s0, xs, q, a, e);
    if xs[q].ReadDone? {
      k := q;
      j := ReadMadeIt(reread, n, xs, q, a, e);
    } else {
      var t, ys := xs[q].t, xs[..q];
      var w := Execute(s0, ys).threads[t].pc.w;
      k := SynthesisStartsFromAMissingRead(reread, n, ys, t);
      j := ReadMadeIt(reread, n, ys, k, w.cache.value, w.entry.value);
      ReadBetweenPrefix(s0, xs, q, j, k);
      assert xs[q].synth == Synthesized(e.bytes, e.source.SyntheticPending?);
    }
  }

  lemma EntryGoesBackToAWriter(reread: bool, n: nat, xs: seq<Action>, a: Addr) returns (k: nat)
    requires
      var h := Execute(Init(reread, n), xs).m.heap;
      a in h && h[a].entry.origin.Written?
    ensures WrittenBy(xs, k, Execute(Init(reread, n), xs).m.heap[a].entry)
  {
    hide Step;
    var s0 := Init(reread, n);
    var e := Execute(s0, xs).m.heap[a].entry;
    AlwaysExplained(reread, n, xs);
    k :| Since(s0, xs, k, a, e);
    if xs[k].ReadDone? {
      var j := ReadMadeIt(reread, n, xs, k, a, e);
    } else if xs[k].SynthDone? {
      var q := SynthesisStartsFromAMissingRead(reread, n, xs[..k], xs[k].t);
      var w := Before(s0, xs, k).threads[xs[k].t].pc.w;
      var j := ReadMadeIt(reread, n, xs[..k], q, w.cache.value, w.entry.value);
    } else if xs[k].PersistWritten? {
      AlwaysExplained(reread, n, xs[..k]);
      assert Accounted(s0, xs[..k], xs[k].t, Before(s0, xs, k).threads[xs[k].t].pc);
    }
  }

  /** What a lookup off StrataFS returns is what some read returned that began after
      every earlier descriptor hook, what was synthesized because such a read found
      nothing, or what an explicit writer supplied. */
  lemma LookupReturnsWhatWasReadSince(n: nat, xs: seq<Action>, x: Action, t: nat, e: Entry) returns (j: nat, k: nat)
    requires BoundedRun(Init(false, n), xs)
    requires Selects(Execute(Init(false, n), xs), x, t, e)
    ensures
      if e.origin.Written? then WrittenBy(xs, k, e)
      else
        && ReadBetween(Init(false, n), xs, j, k) && Tells(xs, k, e)
        && forall h :: 0 <= h < |xs| && Outdates(Before(Init(false, n), xs, h), xs[h]) ==> h < j
  {
    hide Balanced;
    hide Step;
    hide ReadBetween;
    hide Tells;
    var s := Execute(Init(false, n), xs);
    var a := SelectedWasThere(false, n, xs, x, t, e);
    j := 0;
    if e.origin.Written? {
      k := EntryGoesBackToAWriter(false, n, xs, a);
    } else {
      SelectedAfterTheHook(n, xs, x, t, e);
      HooksAreRemembered(false, n, xs);
      j, k := EntryGoesBackToARead(false, n, xs, a);
    }
  }

  /** On StrataFS too every entry a lookup returns is what a read returned or an
      explicit writer supplied. */
  lemma SelectedWasThere(reread: bool, n: nat, xs: seq<Action>, x: Action, t: nat, e: Entry) returns (a: Addr)
    requires Selects(Execute(Init(reread, n), xs), x, t, e)
    ensures Sees(Execute(Init(reread, n), xs).m.heap, a, e)
  {
    hide Balanced;
    hide Counts;
    hide Fast;
    hide Lookup;
    var s := Execute(Init(reread, n), xs);
    NothingUsedIsFreed(reread, n, xs);
    AlwaysCounts(reread, n, xs);
    SelectionTakesTheSlot(s, x, t, e);
    if x.Deref? {
      FastAllocatesNothing(s, x);
    } else {
      RelocksAllocateNothing(s, x);
    }
    a := Step(s, x).m.slot.value;
  }

  /** What a lookup on StrataFS returns is what some read returned that began no earlier
      than the lookup's own last read, which began after everything that outdates one. */
  lemma StrataLookupReturnsWhatWasReadSince(n: nat, xs: seq<Action>, x: Action, t: nat, e: Entry)
    returns (i: nat, j: nat, k: nat)
    requires BoundedRun(Init(true, n), xs)
    requires
      var s := Execute(Init(true, n), xs);
      Selects(s, x, t, e) && Step(s, x).threads[t].pc.Holding?
    ensures
      && i <= j && ReadBetween(Init(true, n), xs, j, k) && Tells(xs, k, e)
      && (exists q :: OwnRead(Init(true, n), xs, t, i, q))
      && forall h :: 0 <= h < |xs| && Outdates(Before(Init(true, n), xs, h), xs[h]) ==> h < i
  {
    hide Balanced;
    hide Step;
    hide ReadBetween;
    hide Tells;
    hide Outdates;
    var a := SelectedWasThere(true, n, xs, x, t, e);
    StrataLookupIsRecent(n, xs, x, t, e);
    HooksAreRemembered(true, n, xs);
    j, k := EntryGoesBackToARead(true, n, xs, a);
    var q: nat;
    i, q := ReturningReadBegan(true, n, xs, t);
  }

  /** A returning reader knows when its own read began. */
  lemma ReturningReadBegan(reread: bool, n: nat, xs: seq<Action>, t: nat) returns (j: nat, k: nat)
    requires
      var s := Execute(Init(reread, n), xs);
      At(s, t) && s.threads[t].pc.ReadBack?
    ensures
      && OwnRead(Init(reread, n), xs, t, j, k)
      && Execute(Init(reread, n), xs).threads[t].pc.w.origin == Read(j + 1)
  {
    hide Step;
    hide OwnRead;
    hide Since;
    var s0 := Init(reread, n);
    var s := Execute(s0, xs);
    AlwaysExplained(reread, n, xs);
    assert Accounted(s0, xs, t, s.threads[t].pc);
    j, k :| OwnRead(s0, xs, t, j, k) && s.threads[t].pc.w.origin == Read(j + 1);
  }

  // ----- every outcome is kept -----

  /** A finished read leaves an entry exactly when it did not fail, and a finished
      synthesis exactly when it did not fail and had a template: the entry the outcome
      asks for, under the thread's hand. */
  lemma OutcomeIsKept(reread: bool, n: nat, xs: seq<Action>, x: Action)
    requires x.ReadDone? || x.SynthDone?
    requires
      var s := Execute(Init(reread, n), xs);
      && At(s, x.t) && x.at !in s.m.heap
      && (if x.ReadDone? then s.threads[x.t].pc.Reading? else s.threads[x.t].pc.Synthesizing?)
    ensures
      var s := Execute(Init(reread, n), xs);
      var r, w := Step(s, x), s.threads[x.t].pc.w;
      var fails := if x.ReadDone? then x.outcome.ReadFailed?
                   else x.synth.SynthFailed? || s.threads[x.t].pc.tag.None?;
      && At(r, x.t)
      && (fails <==> x.at !in r.m.heap)
      && (x.at in r.m.heap ==> Says(x, x.at, r.m.heap[x.at].entry) && r.m.heap[x.at].entry.origin == w.origin)
      && var made := if fails then None else Some(x.at);
         r.threads[x.t].pc == if x.ReadDone? then ReadBack(w, made) else SynthBack(w, made)
  {
    hide Balanced;
    hide Step;
    hide Says;
    var s := Execute(Init(reread, n), xs);
    NothingUsedIsFreed(reread, n, xs);
    AlwaysExplained(reread, n, xs);
    ReadsHaveBegun(Init(reread, n), xs);
    hide Explained;
    DoneKeeps(s, x);
    if x.at in Step(s, x).m.heap {
      NewEntrySaid(s, x, x.at);
    }
  }

  lemma DoneKeeps(s: State, x: Action)
    requires x.ReadDone? || x.SynthDone?
    requires At(s, x.t) && x.at !in s.m.heap
    requires if x.ReadDone? then s.threads[x.t].pc.Reading? else s.threads[x.t].pc.Synthesizing?
    ensures
      var r, pc := Step(s, x), s.threads[x.t].pc;
      var fails := if x.ReadDone? then x.outcome.ReadFailed? else x.synth.SynthFailed? || pc.tag.None?;
      var made := if fails then None else Some(x.at);
      && At(r, x.t) && (fails <==> x.at !in r.m.heap)
      && r.threads[x.t].pc == if x.ReadDone? then ReadBack(pc.w, made) else SynthBack(pc.w, made)
  {}

  /** With a policy that synthesizes, no lookup off StrataFS is handed a missing entry;
      without one, or on StrataFS, no lookup begins a synthesis. */
  lemma MissingIsSynthesizedExactlyThen(reread: bool, n: nat, xs: seq<Action>, x: Action, t: nat, e: Entry)
    requires x.Deref? || x.Call? || x.Relock? || x.SynthRelock?
    ensures
      var s := Execute(Init(reread, n), xs);
      && (Selects(s, x, t, e) && x.synthesizes && !reread ==> !e.state.Missing?)
      && (At(s, t) && !s.threads[t].pc.Synthesizing? && At(Step(s, x), t) && Step(s, x).threads[t].pc.Synthesizing? ==>
            x.t == t && x.synthesizes && !reread)
  {
    hide Balanced;
    hide Counts;
    var s := Execute(Init(reread, n), xs);
    NothingUsedIsFreed(reread, n, xs);
    AlwaysTagged(reread, n, xs);
    AlwaysCounts(reread, n, xs);
    RereadIsFixed(reread, n, xs);
    hide Tagged;
    if !At(s, x.t) {
      NobodyActs(s, x);
    } else if x.t != t {
      if At(s, t) {
        OthersDoNotMove(s, x, t);
      }
    } else if !x.Deref? {
      hide Lookup;
      LookupLeaves(s, x);
    }
  }

  // ----- the two ways in -----

  /** Off StrataFS the fast path under RCU and the path under the mutex agree: from any
      reachable state the one returns an entry exactly when the other returns it
      without dropping the mutex, and they leave the same references. */
  lemma FastPathAgrees(n: nat, xs: seq<Action>, t: nat, synthesizes: bool, a: Addr, e: Entry)
    requires
      var s := Execute(Init(false, n), xs);
      At(s, t) && s.threads[t].pc.Idle?
    ensures
      var s := Execute(Init(false, n), xs);
      var fast := Step(Step(s, Deref(t, synthesizes)), RcuPin(t));
      var slow := Step(s, Call(t, synthesizes));
      && At(fast, t) && At(slow, t)
      && (fast.threads[t].pc == Holding(a, e) <==> slow.threads[t].pc == Holding(a, e))
      && (slow.threads[t].pc == Holding(a, e) ==> fast.m.heap == slow.m.heap)
  {
    hide Balanced;
    hide Step;
    var s := Execute(Init(false, n), xs);
    RereadIsFixed(false, n, xs);
    NothingUsedIsFreed(false, n, xs);
    if s.m.slot.Some? {
      SlotInHeap(s);
    }
    FastWay(s, t, synthesizes);
    SlowWay(s, t, synthesizes);
  }

  /** The slot's entry, if a lookup may return it as it is. */
  predicate Ready(m: Shared, synthesizes: bool) {
    && m.slot.Some? && m.slot.value in m.heap
    && Current(m, m.heap[m.slot.value].entry)
    && !(m.heap[m.slot.value].entry.state.Missing? && synthesizes)
  }

  predicate Takes(s: State, r: State, t: nat, synthesizes: bool) {
    && At(r, t)
    && if Ready(s.m, synthesizes)
       then
         && r.threads[t].pc == Holding(s.m.slot.value, s.m.heap[s.m.slot.value].entry)
         && r.m.heap == Ref(s.m.heap, s.m.slot.value)
       else !r.threads[t].pc.Holding?
  }

  lemma FastWay(s: State, t: nat, synthesizes: bool)
    requires At(s, t) && s.threads[t].pc.Idle? && !s.reread
    ensures Takes(s, Step(Step(s, Deref(t, synthesizes)), RcuPin(t)), t, synthesizes)
  {
    hide Ref;
  }

  lemma SlowWay(s: State, t: nat, synthesizes: bool)
    requires At(s, t) && s.threads[t].pc.Idle? && !s.reread
    ensures Takes(s, Step(s, Call(t, synthesizes)), t, synthesizes)
  {
    hide Ref;
  }

  // ----- write-back -----

  /** A write-back starts exactly when the slot shows a pending descriptor that the
      policy in force made, and it writes those bytes, which were synthesized to be
      written back. */
  lemma WriteBackStartsExactlyWhen(reread: bool, n: nat, xs: seq<Action>, t: nat)
    requires
      var s := Execute(Init(reread, n), xs);
      At(s, t) && s.threads[t].pc.Idle? && t in s.m.works
    ensures
      var s := Execute(Init(reread, n), xs);
      var e, pc := SlotEntry(s.m), Step(s, PersistStart(t)).threads[t].pc;
      && (pc.PersistWriting? <==>
            && e.Some? && e.value.state.Valid? && e.value.source.SyntheticPending? && e.value.bytes != []
            && Current(s.m, e.value))
      && (pc.PersistWriting? ==> pc.bytes == e.value.bytes && SynthesizedBefore(xs, pc.bytes))
  {
    hide SynthesizedBefore;
    hide Since;
    var s0 := Init(reread, n);
    var s := Execute(s0, xs);
    AlwaysExplained(reread, n, xs);
    if Persistable(s.m) {
      var a := s.m.slot.value;
      var k :| Since(s0, xs, k, a, s.m.heap[a].entry);
      PendingWasSynthesized(s0, xs, k, a, s.m.heap[a].entry);
    }
    hide Explained;
  }
}
