/** What the wrapped counters stand for, over every schedule and however long a read
    stays open: stored counters are images of exact ones, a window remembers exact ones
    too, and a lookup's work is within what it has seen. */
module SdCacheCounters {
  import opened Widths
  import opened Descriptors
  import opened SdCacheMachine
  import opened SdCacheReferences
  import opened SdCacheLifetimes
  import opened SdCacheSteps

  // ----- the invariant -----

  predicate Images(m: Shared) {
    && m.epoch == Wrap(m.past.epochs)
    && m.invalidation == Wrap(m.past.invalidations)
    && m.readTicket == Wrap(m.past.tickets)
    && m.publishedTicket == Wrap(m.past.published)
    && m.generation == GenerationAfter(m.past.bumps)
  }

  predicate WindowCounts(reread: bool, m: Shared, w: Window) {
    && w.epoch == Wrap(w.epochs) && w.epochs <= m.past.epochs
    && w.invalidation == Wrap(w.invalidations) && w.invalidations <= m.past.invalidations
    && w.generation == GenerationAfter(w.bumps) && w.bumps <= m.past.bumps
    && w.interference == (if reread then w.invalidations else w.epochs) + w.bumps
    && (!reread && m.past.epochs == w.epochs ==> m.slot == w.cache)
  }

  predicate ReadCounts(reread: bool, m: Shared, w: Window) {
    WindowCounts(reread, m, w) && (reread ==> w.ticket == Wrap(w.tickets))
  }

  /** A lookup that could start over without another interfering step. */
  predicate Slack(th: Thread) {
    th.readCount <= th.seen && th.synths <= th.seen
  }

  /** The entry a synthesis started from fits the policy it was read under, unless the
      generation came all the way round during the read before, which the lookup saw. */
  predicate SynthCounts(m: Shared, th: Thread, w: Window) {
    && WindowCounts(false, m, w)
    && w.entry.Some? && w.entry.value.state.Missing?
    && (TagFits(w.entry.value.source, w.entry.value.generation, w.generation) || Slack(th))
  }

  predicate MadeCurrent(m: Shared, w: Window, made: Option<Addr>) {
    made.Some? && made.value in m.heap && m.past.bumps == w.bumps ==> Current(m, m.heap[made.value].entry)
  }

  /** Reads and syntheses of one lookup, against the interference it has seen. */
  predicate Budget(th: Thread) {
    && th.readCount <= 1 + th.seen
    && th.synths <= 1 + th.seen
    && (th.pc.Reading? || th.pc.ReadBack? ==> th.synths <= th.seen)
  }

  predicate ThreadCounts(reread: bool, m: Shared, th: Thread) {
    && Budget(th)
    && match th.pc
       case Reading(w) => ReadCounts(reread, m, w)
       case ReadBack(w, made) => ReadCounts(reread, m, w) && MadeCurrent(m, w, made)
       case Synthesizing(w, tag) =>
         !reread && SynthCounts(m, th, w) && (tag.Some? && m.past.bumps == w.bumps ==> tag.value == m.generation)
       case SynthBack(w, made) => !reread && SynthCounts(m, th, w) && MadeCurrent(m, w, made)
       case _ => true
  }

  predicate Counts(s: State) {
    && Images(s.m)
    && forall i :: 0 <= i < |s.threads| ==> ThreadCounts(s.reread, s.m, s.threads[i])
  }

  // ----- how a step looks to another thread's window -----

  predicate CountsMove(m: Shared, m': Shared) {
    && Grows(m, m')
    && (m'.past.bumps == m.past.bumps ==> m'.generation == m.generation)
    && (m'.past.epochs == m.past.epochs ==> m'.slot == m.slot)
  }

  predicate MadeKept(m: Shared, m': Shared, th: Thread) {
    (th.pc.ReadBack? || th.pc.SynthBack?) && th.pc.made.Some? && th.pc.made.value in m'.heap ==>
      && th.pc.made.value in m.heap
      && m'.heap[th.pc.made.value].entry == m.heap[th.pc.made.value].entry
  }

  lemma BystanderCounts(reread: bool, m: Shared, m': Shared, th: Thread)
    requires ThreadCounts(reread, m, th) && CountsMove(m, m') && MadeKept(m, m', th)
    ensures ThreadCounts(reread, m', th)
  {
    hide Wrap;
    hide GenerationAfter;
  }

  /** An entry some thread is about to publish stays what it is. */
  lemma MadeEntriesKept(s: State, r: State, i: nat)
    requires Alive(s) && i < |s.threads| && Evolved(s.m.heap, r.m.heap)
    ensures MadeKept(s.m, r.m, s.threads[i])
  {
    hide Balanced;
    assert PcSound(s.m, i, s.threads[i].pc);
  }

  /** What the acting thread's section leaves behind. */
  predicate CountsKept(s: State, r: State, t: nat) {
    && At(s, t) && At(r, t) && r.reread == s.reread
    && Images(r.m) && CountsMove(s.m, r.m) && ThreadCounts(s.reread, r.m, r.threads[t])
  }

  lemma CountsFrom(s: State, r: State, t: nat)
    requires Alive(s) && Counts(s) && Quiet(s, r, t) && CountsKept(s, r, t)
    ensures Counts(Tick(r))
  {
    hide Balanced;
    hide Wrap;
    hide GenerationAfter;
    hide ThreadCounts;
    forall i | 0 <= i < |r.threads| ensures ThreadCounts(r.reread, Tick(r).m, Tick(r).threads[i]) {
      if i != t {
        MadeEntriesKept(s, r, i);
        BystanderCounts(s.reread, s.m, r.m, s.threads[i]);
      }
      TickedCounts(r.reread, r.m, r.threads[i]);
    }
  }

  lemma TickedCounts(reread: bool, m: Shared, th: Thread)
    requires ThreadCounts(reread, m, th)
    ensures ThreadCounts(reread, m.(past := m.past.(clock := m.past.clock + 1)), th)
  {
    hide Wrap;
    hide GenerationAfter;
  }

  // ----- locked sections -----

  lemma BeginReadCounts(s: State, t: nat)
    requires At(s, t) && s.threads[t].pc.Idle? && Images(s.m) && Slack(s.threads[t])
    ensures CountsKept(s, BeginRead(s, t), t)
  {
    assert Wrap(Wrap(s.m.past.tickets) + 1) == Wrap(s.m.past.tickets + 1);
    hide Wrap;
    hide GenerationAfter;
  }

  lemma AfterPopulateCounts(s: State, t: nat, a: Addr, synthesizes: bool)
    requires At(s, t) && s.threads[t].pc.Idle? && Images(s.m) && s.m.slot == Some(a) && a in s.m.heap
    requires s.threads[t].readCount <= 1 + s.threads[t].seen && s.threads[t].synths <= s.threads[t].seen
    requires || s.reread || Current(s.m, s.m.heap[a].entry)
             || (s.threads[t].readCount <= s.threads[t].seen && s.threads[t].synths < s.threads[t].seen)
    ensures CountsKept(s, AfterPopulate(s, t, a, synthesizes), t)
  {
    hide Wrap;
    hide GenerationAfter;
  }

  lemma LockedCounts(s: State, t: nat, synthesizes: bool)
    requires At(s, t) && s.threads[t].pc.Idle? && Images(s.m) && Slack(s.threads[t])
    requires s.m.slot.Some? ==> s.m.slot.value in s.m.heap
    ensures CountsKept(s, Locked(s, t, synthesizes), t)
  {
    if Hit(s) {
      AfterPopulateCounts(s, t, s.m.slot.value, synthesizes);
    } else {
      BeginReadCounts(s, t);
    }
  }

  lemma KeptVia(s: State, s1: State, r: State, t: nat)
    requires At(s, t) && s1.reread == s.reread && CountsMove(s.m, s1.m) && CountsKept(s1, r, t)
    ensures CountsKept(s, r, t)
  {
    hide Images;
    hide ThreadCounts;
  }

  /** A reader never retries for nothing, however long it read. */
  lemma OutdatedMeansInterference(s: State, w: Window)
    requires Images(s.m) && WindowCounts(s.reread, s.m, w) && ReadOutdated(s, w)
    ensures Interference(s.reread, s.m) > w.interference
  {
    hide Wrap;
    hide GenerationAfter;
  }

  /** Nor does a synthesis, unless the lookup has slack from before. */
  lemma SynthOutdatedMeansInterference(s: State, w: Window, made: Option<Addr>, th: Thread)
    requires Images(s.m) && SynthCounts(s.m, th, w) && !s.reread && WindowSees(s.m.heap, w)
    requires MadeCurrent(s.m, w, made) && SynthOutdated(s, w, made)
    ensures Interference(false, s.m) > w.interference || Slack(th)
  {
    hide Wrap;
    hide GenerationAfter;
  }

  /** Starting over. */
  lemma RetryCounts(s: State, t: nat, w: Window, made: Option<Addr>, synthesizes: bool)
    requires At(s, t) && Alive(s) && (s.threads[t].pc == ReadBack(w, made) || s.threads[t].pc == SynthBack(w, made))
    requires Images(s.m) && Budget(s.threads[t])
    requires Interference(s.reread, s.m) > w.interference || Slack(s.threads[t])
    ensures CountsKept(s, Locked(DropBoth(CloseWindow(s, t, w), made, w.cache), t, synthesizes), t)
  {
    hide Balanced;
    hide Locked;
    assert PinsOf(s.threads[t].pc) == One(made) + One(w.cache) + One(None);
    DropBothSection(s, t, w, made, None);
    var s1 := DropBoth(CloseWindow(s, t, w), made, w.cache);
    if s1.m.slot.Some? { SlotInHeap(s1); }
    LockedCounts(s1, t, synthesizes);
    KeptVia(s, s1, Locked(s1, t, synthesizes), t);
  }

  lemma ReuseCounts(s: State, t: nat, w: Window, made: Option<Addr>, synthesizes: bool)
    requires At(s, t) && Alive(s) && s.threads[t].pc == ReadBack(w, made)
    requires Images(s.m) && Budget(s.threads[t]) && s.reread && s.m.slot.Some?
    ensures
      var s1 := DropBoth(CloseWindow(s, t, w), made, w.cache);
      CountsKept(s, AfterPopulate(s1, t, s.m.slot.value, synthesizes), t)
  {
    hide Balanced;
    assert PinsOf(s.threads[t].pc) == One(made) + One(w.cache) + One(None);
    DropBothSection(s, t, w, made, None);
    var s1 := DropBoth(CloseWindow(s, t, w), made, w.cache);
    SlotInHeap(s1);
    AfterPopulateCounts(s1, t, s.m.slot.value, synthesizes);
    KeptVia(s, s1, AfterPopulate(s1, t, s.m.slot.value, synthesizes), t);
  }

  /** The state between publishing a read and returning it. */
  lemma PublishMiddle(s: State, t: nat, w: Window, a: Addr)
    requires At(s, t) && Alive(s) && s.threads[t].pc == ReadBack(w, Some(a))
    ensures
      var s2 := DropBoth(PublishRead(CloseWindow(s, t, w), w, a), None, w.cache);
      && Balanced(s2, multiset{})
      && a in s.m.heap && SlotEntry(s2.m) == Some(s.m.heap[a].entry)
  {
    hide Balanced;
    assert PcSound(s.m, t, s.threads[t].pc);
    var s1 := CloseWindow(s, t, w);
    var both := One(w.cache) + One(Some(a));
    CloseWindowRefs(s, t, w, Some(a));
    var p := PublishRead(s1, w, a);
    InstallRefs(s1, p.m, Some(a), Readers(s1.threads), both);
    assert both - One(Some(a)) == multiset{} + One(None) + One(w.cache);
    DropBothRefs(p, None, w.cache, multiset{});
    var s2 := DropBoth(p, None, w.cache);
    DropBothDerived(p, None, w.cache);
    SlotInHeap(s2);
  }

  lemma PublishedFields(s: State, w: Window, a: Addr, m: Shared)
    requires m == PublishRead(s, w, a).m.(heap := m.heap, pending := m.pending)
    ensures m.epoch == Wrap(s.m.epoch + 1) && m.invalidation == s.m.invalidation && m.readTicket == s.m.readTicket
    ensures m.generation == s.m.generation && m.slot == Some(a)
    ensures m.publishedTicket == (if s.reread then w.ticket else s.m.publishedTicket)
    ensures m.past == s.m.past.(epochs := s.m.past.epochs + 1,
                                published := if s.reread then w.tickets else s.m.past.published)
  {
    hide Wrap;
  }

  lemma PublishedImages(s: State, w: Window, a: Addr, m: Shared)
    requires Images(s.m) && (s.reread ==> w.ticket == Wrap(w.tickets))
    requires m == PublishRead(s, w, a).m.(heap := m.heap, pending := m.pending)
    ensures Images(m) && CountsMove(s.m, m)
  {
    assert Wrap(Wrap(s.m.past.epochs) + 1) == Wrap(s.m.past.epochs + 1);
    hide Wrap;
    hide GenerationAfter;
    PublishedFields(s, w, a, m);
    hide PublishRead;
  }

  lemma PublishCounts(s: State, t: nat, w: Window, a: Addr, synthesizes: bool)
    requires At(s, t) && Alive(s) && s.threads[t].pc == ReadBack(w, Some(a))
    requires Images(s.m) && ThreadCounts(s.reread, s.m, s.threads[t])
    ensures
      var s2 := DropBoth(PublishRead(CloseWindow(s, t, w), w, a), None, w.cache);
      CountsKept(s, AfterPopulate(s2, t, a, synthesizes), t)
  {
    hide Balanced;
    hide Wrap;
    hide GenerationAfter;
    PublishMiddle(s, t, w, a);
    var s1 := CloseWindow(s, t, w);
    var s2 := DropBoth(PublishRead(s1, w, a), None, w.cache);
    PublishedImages(s, w, a, s2.m);
    PublishedFields(s, w, a, s2.m);
    assert s2.threads == s1.threads && s2.reread == s.reread;
    hide PublishRead;
    hide DropBoth;
    AfterPopulateCounts(s2, t, a, synthesizes);
    KeptVia(s, s2, AfterPopulate(s2, t, a, synthesizes), t);
  }

  lemma FailCounts(s: State, t: nat, w: Window, made: Option<Addr>)
    requires At(s, t) && Images(s.m) && Budget(s.threads[t]) && OpenWindow(s.threads[t].pc) == Some(w)
    ensures CountsKept(s, DropBoth(CloseWindow(s, t, w), made, w.cache), t)
  {
    hide Wrap;
    hide GenerationAfter;
  }

  lemma FinishReadCounts(s: State, t: nat, w: Window, made: Option<Addr>, synthesizes: bool)
    requires Alive(s) && Counts(s) && At(s, t) && s.threads[t].pc == ReadBack(w, made)
    ensures CountsKept(s, FinishRead(s, t, w, made, synthesizes), t)
  {
    hide Balanced;
    hide Locked;
    hide AfterPopulate;
    hide PublishRead;
    hide Wrap;
    hide GenerationAfter;
    hide DropBoth;
    assert ThreadCounts(s.reread, s.m, s.threads[t]);
    hide CountsKept;
    if ReadOutdated(s, w) {
      OutdatedMeansInterference(s, w);
      RetryCounts(s, t, w, made, synthesizes);
    } else if made.None? {
      FailCounts(s, t, w, None);
    } else if ReusePublished(s, w) {
      ReuseCounts(s, t, w, made, synthesizes);
    } else {
      PublishCounts(s, t, w, made.value, synthesizes);
    }
  }

  lemma ReplacedFields(m: Shared, entry: Option<Addr>, m': Shared, hook: bool)
    requires var q := Replace(m, entry, {});
             m' == q.(heap := m'.heap, pending := m'.pending, works := m'.works, persistQueued := m'.persistQueued,
                      past := if hook then q.past.(lastHook := m.past.clock) else q.past)
    ensures m'.epoch == Wrap(m.epoch + 1) && m'.invalidation == Wrap(m.invalidation + 1) &&
            m'.readTicket == m.readTicket
    ensures m'.publishedTicket == m.readTicket && m'.generation == m.generation && m'.slot == entry
    ensures m'.past == m.past.(epochs := m.past.epochs + 1, invalidations := m.past.invalidations + 1,
                               published := m.past.tickets, lastReplace := m.past.clock,
                               lastHook := if hook then m.past.clock else m.past.lastHook)
  {
    hide Wrap;
  }

  lemma ReplacedImages(m: Shared, entry: Option<Addr>, m': Shared, hook: bool)
    requires Images(m)
    requires var q := Replace(m, entry, {});
             m' == q.(heap := m'.heap, pending := m'.pending, works := m'.works, persistQueued := m'.persistQueued,
                      past := if hook then q.past.(lastHook := m.past.clock) else q.past)
    ensures Images(m') && CountsMove(m, m')
  {
    assert Wrap(Wrap(m.past.epochs) + 1) == Wrap(m.past.epochs + 1);
    assert Wrap(Wrap(m.past.invalidations) + 1) == Wrap(m.past.invalidations + 1);
    hide Wrap;
    hide GenerationAfter;
    ReplacedFields(m, entry, m', hook);
    hide Replace;
  }

  lemma InstallCounts(s: State, t: nat, w: Window, a: Addr, synthesizes: bool)
    requires At(s, t) && Images(s.m) && Budget(s.threads[t]) && OpenWindow(s.threads[t].pc) == Some(w)
    requires !SynthOutdated(s, w, Some(a))
    ensures CountsKept(s, FinishSynthesis(s, t, w, Some(a), synthesizes), t)
  {
    var r := FinishSynthesis(s, t, w, Some(a), synthesizes);
    hide UnrefOption;
    hide SynthOutdated;
    hide Images;
    ReplacedImages(s.m, Some(a), r.m, false);
  }

  lemma FinishSynthesisCounts(s: State, t: nat, w: Window, made: Option<Addr>, synthesizes: bool)
    requires Alive(s) && Counts(s) && At(s, t) && s.threads[t].pc == SynthBack(w, made)
    ensures CountsKept(s, FinishSynthesis(s, t, w, made, synthesizes), t)
  {
    hide Balanced;
    hide Locked;
    hide Wrap;
    hide GenerationAfter;
    hide DropBoth;
    assert ThreadCounts(s.reread, s.m, s.threads[t]);
    assert PcSound(s.m, t, s.threads[t].pc);
    hide CountsKept;
    if SynthOutdated(s, w, made) {
      SynthOutdatedMeansInterference(s, w, made, s.threads[t]);
      RetryCounts(s, t, w, made, synthesizes);
    } else if made.None? {
      FailCounts(s, t, w, None);
    } else {
      InstallCounts(s, t, w, made.value, synthesizes);
    }
  }

  // ----- every action -----

  lemma CallCounts(s: State, t: nat, synthesizes: bool)
    requires Alive(s) && Counts(s) && At(s, t) && s.threads[t].pc.Idle?
    ensures CountsKept(s, Locked(Enter(s, t), t, synthesizes), t)
  {
    hide Balanced;
    if s.m.slot.Some? { SlotInHeap(s); }
    LockedCounts(Enter(s, t), t, synthesizes);
    hide Locked;
    KeptVia(s, Enter(s, t), Locked(Enter(s, t), t, synthesizes), t);
  }

  lemma DoneCounts(s: State, x: Action)
    requires x.ReadDone? || x.SynthSnapshot? || x.SynthDone?
    requires Counts(s) && At(s, x.t)
    ensures CountsKept(s, Lookup(s, x), x.t)
  {
    hide Wrap;
    hide GenerationAfter;
    assert ThreadCounts(s.reread, s.m, s.threads[x.t]);
  }

  lemma LookupCounts(s: State, x: Action)
    requires x.Call? || x.ReadDone? || x.Relock? || x.SynthSnapshot? || x.SynthDone? || x.SynthRelock?
    requires Alive(s) && Counts(s) && At(s, x.t)
    ensures CountsKept(s, Lookup(s, x), x.t)
  {
    hide Balanced;
    hide Locked;
    hide FinishRead;
    hide FinishSynthesis;
    var t, pc := x.t, s.threads[x.t].pc;
    if x.Call? && pc.Idle? {
      hide CountsKept;
      CallCounts(s, t, x.synthesizes);
    } else if x.Relock? && pc.ReadBack? {
      hide CountsKept;
      FinishReadCounts(s, t, pc.w, pc.made, x.synthesizes);
    } else if x.SynthRelock? && pc.SynthBack? {
      hide CountsKept;
      FinishSynthesisCounts(s, t, pc.w, pc.made, x.synthesizes);
    } else if x.ReadDone? || x.SynthSnapshot? || x.SynthDone? {
      hide CountsKept;
      DoneCounts(s, x);
    } else {
      assert Lookup(s, x) == s;
      StillCounts(s, t);
    }
  }

  lemma StillCounts(s: State, t: nat)
    requires Counts(s) && At(s, t)
    ensures CountsKept(s, s, t)
  {}

  lemma PlainCounts(s: State, r: State, t: nat)
    requires Alive(s) && Counts(s) && Plain(s, r, t)
    ensures CountsKept(s, r, t)
  {
    hide Balanced;
    hide Wrap;
    hide GenerationAfter;
    assert ThreadCounts(s.reread, s.m, s.threads[t]);
    if r.threads[t] == s.threads[t] {
      MadeEntriesKept(s, r, t);
      BystanderCounts(s.reread, s.m, r.m, s.threads[t]);
    }
  }

  lemma WriteBackCounts(s: State, x: Action)
    requires x.PersistWritten? || x.Promote?
    requires Alive(s) && Counts(s) && At(s, x.t)
    ensures CountsKept(s, Persist(s, x), x.t)
  {
    hide Balanced;
    hide Wrap;
    hide GenerationAfter;
    var r := Persist(s, x);
    assert ThreadCounts(s.reread, s.m, s.threads[x.t]);
    if r.m.past.epochs == s.m.past.epochs {
      WriteBackIsPlain(s, x);
      PlainCounts(s, r, x.t);
    } else if x.PersistWritten? {
      ReplacedImages(s.m, None, r.m, true);
    } else {
      ReplacedImages(s.m, Some(s.threads[x.t].pc.a), r.m, false);
    }
  }

  lemma PersistCounts(s: State, x: Action)
    requires x.Claim? || x.QueuePersist? || x.PersistStart? || x.PersistWritten? || x.Promote?
    requires Alive(s) && Counts(s) && At(s, x.t)
    ensures CountsKept(s, Persist(s, x), x.t)
  {
    hide Balanced;
    hide Persist;
    hide CountsKept;
    if x.PersistWritten? || x.Promote? {
      WriteBackCounts(s, x);
    } else {
      QueueStepIsPlain(s, x);
      PlainCounts(s, Persist(s, x), x.t);
    }
  }

  lemma OutsideCounts(s: State, x: Action)
    requires x.SetSecurity? || x.PostSetxattr? || x.Invalidate? || x.BumpGeneration? || x.GracePeriod?
    requires Images(s.m)
    ensures Images(Outside(s, x).m) && CountsMove(s.m, Outside(s, x).m)
  {
    hide Wrap;
    hide GenerationAfter;
    var r := Outside(s, x);
    match x {
      case SetSecurity(_, at) =>
        if at !in s.m.heap { ReplacedImages(s.m, Some(at), r.m, true); }
      case PostSetxattr | Invalidate => ReplacedImages(s.m, None, r.m, true);
      case BumpGeneration => GenerationAfterStep(s.m.past.bumps);
      case GracePeriod(k) =>
    }
  }

  lemma BystandersCount(s: State, r: State)
    requires Alive(s) && Counts(s) && Quiet(s, r, -1) && r.reread == s.reread
    requires Images(r.m) && CountsMove(s.m, r.m)
    ensures Counts(Tick(r))
  {
    hide Balanced;
    hide Wrap;
    hide GenerationAfter;
    hide ThreadCounts;
    forall i | 0 <= i < |r.threads| ensures ThreadCounts(r.reread, Tick(r).m, Tick(r).threads[i]) {
      MadeEntriesKept(s, r, i);
      BystanderCounts(s.reread, s.m, r.m, s.threads[i]);
      TickedCounts(r.reread, r.m, r.threads[i]);
    }
  }

  /** Every step keeps the counts, whatever the windows have seen. */
  lemma StepCounts(s: State, x: Action)
    requires Alive(s) && Counts(s)
    ensures Counts(Step(s, x))
  {
    hide Balanced;
    hide Quiet;
    hide Counts;
    hide Fast;
    hide Lookup;
    hide Persist;
    hide Outside;
    hide CountsKept;
    if x.SetSecurity? || x.PostSetxattr? || x.Invalidate? || x.BumpGeneration? || x.GracePeriod? {
      OutsideShape(s, x);
      OutsideStepCounts(s, x);
    } else if !At(s, x.t) {
      NobodyActs(s, x);
      IdleStepCounts(s);
    } else if x.Deref? || x.RcuPin? || x.DropProbe? || x.Release? {
      FastShape(s, x);
      FastStepIsPlain(s, x);
      PlainCounts(s, Fast(s, x), x.t);
      CountsFrom(s, Fast(s, x), x.t);
    } else if x.Call? || x.ReadDone? || x.Relock? || x.SynthSnapshot? || x.SynthDone? || x.SynthRelock? {
      LookupShape(s, x);
      LookupCounts(s, x);
      CountsFrom(s, Lookup(s, x), x.t);
    } else {
      assert PcSound(s.m, x.t, s.threads[x.t].pc);
      PersistShape(s, x);
      PersistCounts(s, x);
      CountsFrom(s, Persist(s, x), x.t);
    }
  }

  lemma OutsideStepCounts(s: State, x: Action)
    requires x.SetSecurity? || x.PostSetxattr? || x.Invalidate? || x.BumpGeneration? || x.GracePeriod?
    requires Alive(s) && Counts(s) && Quiet(s, Outside(s, x), -1)
    ensures Counts(Step(s, x))
  {
    hide Balanced;
    hide Quiet;
    hide Outside;
    hide Images;
    hide CountsMove;
    hide ThreadCounts;
    RereadStays(s, x);
    OutsideCounts(s, x);
    BystandersCount(s, Outside(s, x));
  }

  lemma IdleStepCounts(s: State)
    requires Counts(s)
    ensures Counts(Tick(s))
  {
    hide ThreadCounts;
    hide Wrap;
    hide GenerationAfter;
    forall i | 0 <= i < |s.threads| ensures ThreadCounts(s.reread, Tick(s).m, s.threads[i]) {
      TickedCounts(s.reread, s.m, s.threads[i]);
    }
  }

  lemma {:induction false} AlwaysCounts(reread: bool, n: nat, xs: seq<Action>)
    ensures Counts(Execute(Init(reread, n), xs))
  {
    hide Balanced;
    hide Step;
    if xs != [] {
      AlwaysCounts(reread, n, xs[..|xs| - 1]);
      NothingUsedIsFreed(reread, n, xs[..|xs| - 1]);
      hide Counts;
      StepCounts(Execute(Init(reread, n), xs[..|xs| - 1]), xs[|xs| - 1]);
    }
  }

  // ----- when the comparison misses something -----

  /** Over every run, however long the read was open: the comparison lets it through
      exactly when every counter that is compared has come all the way round, and off
      StrataFS the slot shows the same entry. */
  lemma MissedExactlyWhenCountersComeRound(reread: bool, n: nat, xs: seq<Action>, t: nat)
    requires var s := Execute(Init(reread, n), xs); At(s, t) && s.threads[t].pc.ReadBack?
    ensures
      var s := Execute(Init(reread, n), xs);
      var w := s.threads[t].pc.w;
      && w.epochs <= s.m.past.epochs && w.invalidations <= s.m.past.invalidations && w.bumps <= s.m.past.bumps
      && (!ReadOutdated(s, w) <==>
          && (if reread then (s.m.past.invalidations - w.invalidations) % U64 == 0
              else s.m.slot == w.cache && (s.m.past.epochs - w.epochs) % U64 == 0)
          && (s.m.past.bumps == w.bumps || (w.bumps > 0 && (s.m.past.bumps - w.bumps) % (U32 - 1) == 0)))
  {
    AlwaysCounts(reread, n, xs);
    RereadIsFixed(reread, n, xs);
    var s := Execute(Init(reread, n), xs);
    hide Execute;
    var w := s.threads[t].pc.w;
    assert ThreadCounts(s.reread, s.m, s.threads[t]);
    GenerationsMeet(w.bumps, s.m.past.bumps);
    WrapsMeet(w.epochs, s.m.past.epochs);
    WrapsMeet(w.invalidations, s.m.past.invalidations);
    hide Wrap;
    hide GenerationAfter;
  }

  lemma GenerationsMeet(b: nat, c: nat)
    requires b <= c
    ensures GenerationAfter(b) == GenerationAfter(c) <==> b == c || (b > 0 && (c - b) % (U32 - 1) == 0)
  {
    if b > 0 {
      ResiduesMeet(b - 1, c - 1);
    }
  }

  lemma ResiduesMeet(x: nat, y: nat)
    requires x <= y
    ensures x % (U32 - 1) == y % (U32 - 1) <==> (y - x) % (U32 - 1) == 0
  {}

  lemma WrapsMeet(x: nat, y: nat)
    requires x <= y
    ensures Wrap(x) == Wrap(y) <==> (y - x) % U64 == 0
  {}
}
