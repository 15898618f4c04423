/** What the descriptor cache promises its callers, over every schedule. */
module SdCacheTheorems {
  import opened Widths
  import opened SdCacheMachine
  import opened SdCacheReferences
  import opened SdCacheLifetimes
  import opened SdCacheSteps
  import opened SdCacheCounters
  import opened SdCacheOrder

  /** Thread `t` has no entry yet and this action gives it one. */
  predicate Selects(s: State, x: Action, t: nat, e: Entry) {
    && At(s, t) && At(Step(s, x), t)
    && !(s.threads[t].pc.InRcu? || s.threads[t].pc.Holding? || s.threads[t].pc.Claimed?)
    && ((Step(s, x).threads[t].pc.InRcu? && Step(s, x).threads[t].pc.e == e) ||
        (Step(s, x).threads[t].pc.Holding? && Step(s, x).threads[t].pc.e == e))
  }

  /** A selection is made by the thread's own lookup, and takes the slot's entry. */
  lemma SelectionTakesTheSlot(s: State, x: Action, t: nat, e: Entry)
    requires Alive(s) && Counts(s) && Selects(s, x, t, e)
    ensures x.Deref? || x.Call? || x.Relock? || x.SynthRelock?
    ensures x.t == t
    ensures SlotEntry(Step(s, x).m) == Some(e)
    ensures Step(s, x).m.past.lastHook == s.m.past.lastHook
  {
    hide Balanced;
    hide Quiet;
    if x.SetSecurity? || x.PostSetxattr? || x.Invalidate? || x.BumpGeneration? || x.GracePeriod? {
      OutsideMovesNobody(s, x);
    } else if !At(s, x.t) {
      NobodyActs(s, x);
    } else if x.t != t {
      OthersDoNotMove(s, x, t);
    } else if x.Deref? {
    } else if x.Call? || x.Relock? || x.SynthRelock? {
      LookupSelects(s, x, e);
    } else {
      OtherActionsSelectNothing(s, x, e);
    }
  }

  lemma OtherActionsSelectNothing(s: State, x: Action, e: Entry)
    requires x.RcuPin? || x.DropProbe? || x.Release? || x.ReadDone? || x.SynthSnapshot? || x.SynthDone? ||
             x.Claim? || x.QueuePersist? || x.PersistStart? || x.PersistWritten? || x.Promote?
    requires At(s, x.t)
    ensures !Selects(s, x, x.t, e)
  {
    hide Wrap;
    hide Ref;
    hide Unref;
    hide Defer;
  }

  lemma LockedSelects(s: State, t: nat, synthesizes: bool)
    requires At(s, t)
    ensures
      var r := Locked(s, t, synthesizes);
      && At(r, t) && !r.threads[t].pc.InRcu? && r.m.past.lastHook == s.m.past.lastHook
      && (r.threads[t].pc.Holding? ==> SlotEntry(r.m) == Some(r.threads[t].pc.e) && !s.reread)
  {}

  lemma AfterPopulateSelects(s: State, t: nat, a: Addr, synthesizes: bool)
    requires At(s, t) && s.m.slot == Some(a)
    ensures
      var r := AfterPopulate(s, t, a, synthesizes);
      && At(r, t) && !r.threads[t].pc.InRcu? && r.m == s.m.(heap := r.m.heap)
      && (r.threads[t].pc.Holding? ==> SlotEntry(r.m) == Some(r.threads[t].pc.e))
  {}

  /** What a locked section leaves in the slot when it hands out an entry. */
  predicate HandsOutTheSlot(s: State, r: State, t: nat) {
    && At(r, t) && !r.threads[t].pc.InRcu? && r.m.past.lastHook == s.m.past.lastHook
    && (r.threads[t].pc.Holding? ==> SlotEntry(r.m) == Some(r.threads[t].pc.e))
  }

  lemma FinishReadSelects(s: State, t: nat, w: Window, made: Option<Addr>, synthesizes: bool)
    requires At(s, t)
    ensures HandsOutTheSlot(s, FinishRead(s, t, w, made, synthesizes), t)
  {
    hide Locked;
    hide AfterPopulate;
    hide Wrap;
    hide UnrefOption;
    hide SignedDiff;
    hide ReadOutdated;
    var s1 := CloseWindow(s, t, w);
    if ReadOutdated(s, w) {
      LockedSelects(DropBoth(s1, made, w.cache), t, synthesizes);
    } else if made.Some? {
      if ReusePublished(s, w) {
        AfterPopulateSelects(DropBoth(s1, made, w.cache), t, s.m.slot.value, synthesizes);
      } else {
        AfterPopulateSelects(DropBoth(PublishRead(s1, w, made.value), None, w.cache), t, made.value, synthesizes);
      }
    }
  }

  lemma FinishSynthesisSelects(s: State, t: nat, w: Window, made: Option<Addr>, synthesizes: bool)
    requires At(s, t)
    ensures HandsOutTheSlot(s, FinishSynthesis(s, t, w, made, synthesizes), t)
  {
    hide Locked;
    hide Wrap;
    hide UnrefOption;
    hide SynthOutdated;
    if SynthOutdated(s, w, made) {
      LockedSelects(DropBoth(CloseWindow(s, t, w), made, w.cache), t, synthesizes);
    }
  }

  lemma LookupSelects(s: State, x: Action, e: Entry)
    requires x.Call? || x.Relock? || x.SynthRelock?
    requires Alive(s) && Counts(s) && Selects(s, x, x.t, e)
    ensures SlotEntry(Step(s, x).m) == Some(e)
    ensures Step(s, x).m.past.lastHook == s.m.past.lastHook
    ensures s.reread ==> x.Relock? && s.threads[x.t].pc.ReadBack?
  {
    hide Balanced;
    hide Locked;
    hide FinishRead;
    hide FinishSynthesis;
    hide Wrap;
    hide GenerationAfter;
    var t, pc := x.t, s.threads[x.t].pc;
    assert ThreadCounts(s.reread, s.m, s.threads[t]);
    if x.Call? {
      LockedSelects(Enter(s, t), t, x.synthesizes);
    } else if x.Relock? && pc.ReadBack? {
      FinishReadSelects(s, t, pc.w, pc.made, x.synthesizes);
    } else if x.SynthRelock? && pc.SynthBack? {
      FinishSynthesisSelects(s, t, pc.w, pc.made, x.synthesizes);
    }
  }

  /** Coherence: on an inode that is not re-read, what any lookup selects comes
      from no xattr read that began before the latest descriptor hook, as long as no
      read or synthesis spans 2^64 epochs; policy changes do not matter. */
  lemma SelectedAfterTheHook(n: nat, xs: seq<Action>, x: Action, t: nat, e: Entry)
    requires BoundedRun(Init(false, n), xs)
    requires Selects(Execute(Init(false, n), xs), x, t, e)
    ensures e.origin.Read? ==> Execute(Init(false, n), xs).m.past.lastHook < e.origin.began
  {
    hide Balanced;
    var s := Execute(Init(false, n), xs);
    RereadIsFixed(false, n, xs);
    AlwaysOrdered(false, n, xs);
    assert xs[..|xs|] == xs;
    StepOrdered(s, x);
    SelectionTakesTheSlot(s, x, t, e);
    assert Step(s, x).reread == s.reread by { RereadStays(s, x); }
  }

  // ----- StrataFS: read tickets -----

  /** The wrapped comparison a reader makes is the true order of read starts
      whenever its guard holds: another entry is in the slot, and nothing was
      explicitly replaced since this read began. */
  lemma TicketComparisonIsExact(n: nat, xs: seq<Action>, t: nat)
    requires BoundedRun(Init(true, n), xs)
    requires
      var s := Execute(Init(true, n), xs);
      && At(s, t) && s.threads[t].pc.ReadBack?
      && s.m.past.invalidations == s.threads[t].pc.w.invalidations
      && s.m.slot != s.threads[t].pc.w.cache
    ensures
      var s := Execute(Init(true, n), xs);
      var w := s.threads[t].pc.w;
      && SlotEntry(s.m).Some? && SlotEntry(s.m).value.origin.Read? && w.origin.Read?
      && (SignedDiff(s.m.publishedTicket, w.ticket) > 0 <==> w.origin.began < SlotEntry(s.m).value.origin.began)
      && (SignedDiff(s.m.publishedTicket, w.ticket) == 0 <==> w.origin.began == SlotEntry(s.m).value.origin.began)
  {
    hide Balanced;
    RereadIsFixed(true, n, xs);
    AlwaysOrdered(true, n, xs);
    TicketOrder(Execute(Init(true, n), xs), t);
  }

  lemma TicketOrder(s: State, t: nat)
    requires OrderedAt(s, s.m.past.clock) && Counts(s) && s.reread && At(s, t) && s.threads[t].pc.ReadBack?
    requires s.m.past.invalidations == s.threads[t].pc.w.invalidations && s.m.slot != s.threads[t].pc.w.cache
    ensures
      var w := s.threads[t].pc.w;
      && SlotEntry(s.m).Some? && SlotEntry(s.m).value.origin.Read? && w.origin.Read?
      && (SignedDiff(s.m.publishedTicket, w.ticket) > 0 <==> w.origin.began < SlotEntry(s.m).value.origin.began)
      && (SignedDiff(s.m.publishedTicket, w.ticket) == 0 <==> w.origin.began == SlotEntry(s.m).value.origin.began)
  {
    hide Wrap;
    hide SignedDiff;
    hide GenerationAfter;
    hide SlotEntry;
    var w := s.threads[t].pc.w;
    assert ThreadSound(s.reread, s.m, s.threads[t], s.m.past.clock);
    assert ThreadCounts(s.reread, s.m, s.threads[t]);
    SignedDiffIsExact(s.m.past.published, w.tickets);
    var i, j := s.m.past.published - 1, w.tickets - 1;
    assert i < j ==> s.m.past.starts[i] < s.m.past.starts[j];
    assert j < i ==> s.m.past.starts[j] < s.m.past.starts[i];
  }

  /** On StrataFS a lookup returns only from its own relock, and what it returns
      was read no earlier than its own last read, with no replacement since that read
      began and, unless the generation came all the way round meanwhile, no policy
      change. */
  lemma StrataLookupIsRecent(n: nat, xs: seq<Action>, x: Action, t: nat, e: Entry)
    requires BoundedRun(Init(true, n), xs)
    requires
      var s := Execute(Init(true, n), xs);
      Selects(s, x, t, e) && Step(s, x).threads[t].pc.Holding?
    ensures
      var s := Execute(Init(true, n), xs);
      && x.Relock? && x.t == t && s.threads[t].pc.ReadBack?
      && var w := s.threads[t].pc.w;
         && w.origin.Read? && e.origin.Read?
         && w.origin.began <= e.origin.began
         && s.m.past.lastReplace < w.origin.began
         && (PolicyBounded(s.m, w) ==> s.m.past.lastBump < w.origin.began)
         && Step(s, x).m.past.lastReplace == s.m.past.lastReplace
         && Step(s, x).m.past.lastBump == s.m.past.lastBump
  {
    hide Balanced;
    var s := Execute(Init(true, n), xs);
    RereadIsFixed(true, n, xs);
    AlwaysOrdered(true, n, xs);
    assert xs[..|xs|] == xs;
    SelectionTakesTheSlot(s, x, t, e);
    DerefHoldsNothing(s, x);
    LookupSelects(s, x, e);
    RecentRelock(s, t, x.synthesizes, e);
  }

  lemma DerefHoldsNothing(s: State, x: Action)
    ensures x.Deref? && At(s, x.t) && !s.threads[x.t].pc.Holding? ==> !Step(s, x).threads[x.t].pc.Holding?
  {}

  lemma RecentRelock(s: State, t: nat, synthesizes: bool, e: Entry)
    requires Ordered(s) && s.reread && WindowsBounded(s) && At(s, t) && s.threads[t].pc.ReadBack?
    requires
      var r := Step(s, Relock(t, synthesizes));
      At(r, t) && r.threads[t].pc.Holding? && r.threads[t].pc.e == e
    ensures
      var w, r := s.threads[t].pc.w, Step(s, Relock(t, synthesizes));
      && w.origin.Read? && e.origin.Read?
      && w.origin.began <= e.origin.began
      && s.m.past.lastReplace < w.origin.began
      && (PolicyBounded(s.m, w) ==> s.m.past.lastBump < w.origin.began)
      && r.m.past.lastReplace == s.m.past.lastReplace
      && r.m.past.lastBump == s.m.past.lastBump
  {
    hide UnrefOption;
    hide Balanced;
    hide Locked;
    hide AfterPopulate;
    hide Wrap;
    hide GenerationAfter;
    hide SignedDiff;
    var w, made := s.threads[t].pc.w, s.threads[t].pc.made;
    var s1 := CloseWindow(s, t, w);
    assert ThreadSound(s.reread, s.m, s.threads[t], s.m.past.clock);
    assert PcSound(s.m, t, s.threads[t].pc);
    assert OpenWindow(s.threads[t].pc) == Some(w);
    assert ThreadCounts(s.reread, s.m, s.threads[t]);
    if PolicyBounded(s.m, w) {
      GenerationInjective(w.bumps, s.m.past.bumps);
    }
    if ReadOutdated(s, w) {
      LockedSelects(DropBoth(s1, made, w.cache), t, synthesizes);
    } else if made.Some? {
      AcceptedMeansUnchanged(s, w);
      if ReusePublished(s, w) {
        ReuseEstablishes(s, t, w, made, synthesizes);
        TicketOrder(s, t);
      } else {
        AfterPopulateSelects(DropBoth(PublishRead(s1, w, made.value), None, w.cache), t, made.value, synthesizes);
        PublishEstablishes(s, t, w, made.value, synthesizes);
      }
    }
  }

  /** One step never replaces a published observation by an older one, unless it
      is an explicit replacement. */
  lemma PublicationMovesForward(s: State, x: Action)
    requires Ordered(s) && s.reread && WindowsBounded(s)
    requires Step(s, x).m.past.invalidations == s.m.past.invalidations
    requires SlotEntry(s.m).Some? && SlotEntry(s.m).value.origin.Read?
    ensures
      var e := SlotEntry(Step(s, x).m);
      e.Some? && e.value.origin.Read? && SlotEntry(s.m).value.origin.began <= e.value.origin.began
  {
    hide Balanced;
    hide Wrap;
    hide GenerationAfter;
    StepOrdered(s, x);
    if x.Relock? && At(s, x.t) && s.threads[x.t].pc.ReadBack? {
      RelockMovesForward(s, x.t, x.synthesizes);
    } else {
      QuietSlot(s, x);
    }
  }

  lemma RelockMovesForward(s: State, t: nat, synthesizes: bool)
    requires Ordered(s) && s.reread && WindowsBounded(s) && At(s, t) && s.threads[t].pc.ReadBack?
    requires SlotEntry(s.m).Some? && SlotEntry(s.m).value.origin.Read?
    ensures
      var e := SlotEntry(Step(s, Relock(t, synthesizes)).m);
      e.Some? && e.value.origin.Read? && SlotEntry(s.m).value.origin.began <= e.value.origin.began
  {
    hide Balanced;
    hide Wrap;
    hide GenerationAfter;
    hide SignedDiff;
    hide FinishRead;
    hide ReadOutdated;
    hide ReusePublished;
    var w, made := s.threads[t].pc.w, s.threads[t].pc.made;
    assert ThreadSound(s.reread, s.m, s.threads[t], s.m.past.clock);
    assert OpenWindow(s.threads[t].pc) == Some(w);
    FinishReadEstablishes(s, t, w, made, synthesizes);
    var r := FinishRead(s, t, w, made, synthesizes);
    assert Tick(r).m.slot == r.m.slot && Tick(r).m.heap == r.m.heap;
    if !ReadOutdated(s, w) && made.Some? && !ReusePublished(s, w) {
      PublicationIsNewer(s, t, w, made.value, synthesizes);
    } else {
      OnlyPublishingMoves(s, t, w, made, synthesizes);
    }
  }

  lemma OnlyPublishingMoves(s: State, t: nat, w: Window, made: Option<Addr>, synthesizes: bool)
    requires At(s, t) && (ReadOutdated(s, w) || made.None? || ReusePublished(s, w))
    ensures FinishRead(s, t, w, made, synthesizes).m.past.epochs == s.m.past.epochs
  {
    hide Locked;
    hide UnrefOption;
    hide Wrap;
    LockedCounters(DropBoth(CloseWindow(s, t, w), made, w.cache), t, synthesizes);
  }

  lemma PublicationIsNewer(s: State, t: nat, w: Window, a: Addr, synthesizes: bool)
    requires Ordered(s) && s.reread && At(s, t) && s.threads[t].pc == ReadBack(w, Some(a)) && Bounded(s.reread, s.m, w)
    requires !ReadOutdated(s, w) && !ReusePublished(s, w)
    requires SlotEntry(s.m).Some? && SlotEntry(s.m).value.origin.Read?
    ensures
      var e := SlotEntry(FinishRead(s, t, w, Some(a), synthesizes).m);
      e.Some? && e.value.origin.Read? && SlotEntry(s.m).value.origin.began <= e.value.origin.began
  {
    hide Balanced;
    hide AfterPopulate;
    hide UnrefOption;
    hide Wrap;
    hide GenerationAfter;
    hide SignedDiff;
    assert ThreadSound(s.reread, s.m, s.threads[t], s.m.past.clock);
    assert PcSound(s.m, t, s.threads[t].pc);
    assert ThreadCounts(s.reread, s.m, s.threads[t]);
    AcceptedMeansUnchanged(s, w);
    PublishEstablishes(s, t, w, a, synthesizes);
    if s.m.slot != w.cache {
      TicketOrder(s, t);
    }
  }

  lemma QuietSlot(s: State, x: Action)
    requires Ordered(s) && s.reread
    requires Step(s, x).m.past.invalidations == s.m.past.invalidations
    requires !(x.Relock? && At(s, x.t) && s.threads[x.t].pc.ReadBack?)
    requires SlotEntry(s.m).Some?
    ensures SlotEntry(Step(s, x).m) == SlotEntry(s.m)
  {
    hide Balanced;
    hide Step;
    SlotAddressKept(s, x);
    StepAlive(s, x);
    SlotInHeap(Step(s, x));
    EntriesEvolve(s, x);
  }

  lemma SlotAddressKept(s: State, x: Action)
    requires Ordered(s) && s.reread
    requires Step(s, x).m.past.invalidations == s.m.past.invalidations
    requires !(x.Relock? && At(s, x.t) && s.threads[x.t].pc.ReadBack?)
    ensures Step(s, x).m.slot == s.m.slot
  {
    hide Balanced;
    hide Wrap;
    hide LeaveRcu;
    hide ReadEntry;
    hide SynthEntry;
    hide PendingEntry;
    hide Persistable;
    hide FinishSynthesis;
    hide FinishRead;
    hide Locked;
    hide Unref;
    hide Ref;
    hide SharedSound;
    if x.SynthRelock? && At(s, x.t) {
      assert ThreadCounts(s.reread, s.m, s.threads[x.t]);
    } else if x.Call? && At(s, x.t) {
      LockedKeepsTheSlot(Enter(s, x.t), x.t, x.synthesizes);
    }
    hide ThreadSound;
    hide ThreadCounts;
  }

  /** Over any stretch of a run without an explicit replacement, the published
      observation never gives way to one whose read began earlier. */
  lemma {:induction false} PublishedNeverGoesBack(n: nat, xs: seq<Action>, k: nat)
    requires k <= |xs| && BoundedRun(Init(true, n), xs)
    requires
      var s, r := Execute(Init(true, n), xs[..k]), Execute(Init(true, n), xs);
      && r.m.past.invalidations == s.m.past.invalidations
      && SlotEntry(s.m).Some? && SlotEntry(s.m).value.origin.Read?
    ensures
      var s, r := Execute(Init(true, n), xs[..k]), Execute(Init(true, n), xs);
      && SlotEntry(r.m).Some? && SlotEntry(r.m).value.origin.Read?
      && SlotEntry(s.m).value.origin.began <= SlotEntry(r.m).value.origin.began
    decreases |xs|
  {
    hide Balanced;
    hide Step;
    var s0 := Init(true, n);
    if k == |xs| {
      assert xs[..k] == xs;
    } else {
      var ys, x := xs[..|xs| - 1], xs[|xs| - 1];
      PrefixBounded(s0, xs, |xs| - 1);
      assert ys[..k] == xs[..k];
      CountersGrowOver(true, n, ys, k);
      CountersGrow(Execute(s0, ys), x);
      PublishedNeverGoesBack(n, ys, k);
      RereadIsFixed(true, n, ys);
      AlwaysOrdered(true, n, ys);
      assert ys[..|ys|] == ys;
      PublicationMovesForward(Execute(s0, ys), x);
    }
  }

}
