/** Which observations a lookup may return: the order of reads, replacements and
    policy changes that the wrapped counters stand for, kept over every schedule
    in which no single window outlives the range of a counter it is compared by. */
module SdCacheOrder {
  import opened Widths
  import opened SdCacheMachine
  import opened SdCacheReferences
  import opened SdCacheLifetimes
  import opened SdCacheSteps
  import opened SdCacheCounters

  // ----- ranges -----

  /** A window has not been open long enough for a counter that orders reads to come
      round: off StrataFS fewer than 2^64 epochs, on StrataFS fewer than 2^64
      invalidations and 2^63 read tickets since it opened. */
  predicate Bounded(reread: bool, m: Shared, w: Window) {
    if reread then m.past.invalidations < w.invalidations + U64 && m.past.tickets < w.tickets + U63
    else m.past.epochs < w.epochs + U64
  }

  /** Nor for the policy generation, which matters only to what policy changes do. */
  predicate PolicyBounded(m: Shared, w: Window) {
    m.past.bumps < w.bumps + (U32 - 1)
  }

  predicate WindowsBounded(s: State) {
    forall i :: 0 <= i < |s.threads| && OpenWindow(s.threads[i].pc).Some? ==>
      Bounded(s.reread, s.m, OpenWindow(s.threads[i].pc).value)
  }

  /** Every state of the run has bounded windows. */
  ghost predicate BoundedRun(s: State, xs: seq<Action>) {
    forall k :: 0 <= k <= |xs| ==> WindowsBounded(Execute(s, xs[..k]))
  }

  ghost predicate PolicyBoundedRun(s: State, xs: seq<Action>) {
    forall k :: 0 <= k <= |xs| ==> PoliciesBounded(Execute(s, xs[..k]))
  }

  predicate PoliciesBounded(s: State) {
    forall i :: 0 <= i < |s.threads| && OpenWindow(s.threads[i].pc).Some? ==>
      PolicyBounded(s.m, OpenWindow(s.threads[i].pc).value)
  }

  lemma PrefixBounded(s0: State, xs: seq<Action>, k: nat)
    requires k <= |xs|
    ensures BoundedRun(s0, xs) ==> BoundedRun(s0, xs[..k])
    ensures PolicyBoundedRun(s0, xs) ==> PolicyBoundedRun(s0, xs[..k])
  {
    hide WindowsBounded;
    hide PoliciesBounded;
    forall j | 0 <= j <= k ensures Execute(s0, xs[..k][..j]) == Execute(s0, xs[..j]) {
      assert xs[..k][..j] == xs[..j];
    }
  }

  /** In range, a read that is let through saw no change it is compared by. */
  lemma AcceptedMeansUnchanged(s: State, w: Window)
    requires Images(s.m) && WindowCounts(s.reread, s.m, w) && Bounded(s.reread, s.m, w) && !ReadOutdated(s, w)
    ensures s.reread ==> s.m.past.invalidations == w.invalidations
    ensures !s.reread ==> s.m.past.epochs == w.epochs && s.m.slot == w.cache
  {
    WrapInjective(w.invalidations, if s.reread then s.m.past.invalidations else w.invalidations);
    WrapInjective(w.epochs, if s.reread then w.epochs else s.m.past.epochs);
    hide Wrap;
    hide GenerationAfter;
  }

  /** Within the counters' range a reader retries exactly when something it must not miss
      happened while it was reading, whatever earlier reads of the run did. */
  lemma RetriesExactlyOnInterference(reread: bool, n: nat, xs: seq<Action>, t: nat)
    requires
      var s := Execute(Init(reread, n), xs);
      && At(s, t) && s.threads[t].pc.ReadBack?
      && Bounded(reread, s.m, s.threads[t].pc.w) && PolicyBounded(s.m, s.threads[t].pc.w)
    ensures
      var s := Execute(Init(reread, n), xs);
      ReadOutdated(s, s.threads[t].pc.w) <==> Interference(reread, s.m) != s.threads[t].pc.w.interference
  {
    AlwaysCounts(reread, n, xs);
    RereadIsFixed(reread, n, xs);
    var s := Execute(Init(reread, n), xs);
    hide Execute;
    var w := s.threads[t].pc.w;
    assert ThreadCounts(s.reread, s.m, s.threads[t]);
    if ReadOutdated(s, w) {
      OutdatedMeansInterference(s, w);
    } else {
      AcceptedMeansUnchanged(s, w);
      GenerationInjective(w.bumps, s.m.past.bumps);
    }
    hide Wrap;
    hide GenerationAfter;
  }

  // ----- the invariant -----

  /** Recorded times are past, and read starts are in order. */
  predicate Clocks(m: Shared, bound: nat) {
    && m.past.published <= m.past.tickets
    && m.past.lastHook < bound
    && m.past.lastReplace < bound
    && m.past.lastBump < bound
    && |m.past.starts| == m.past.tickets
    && (forall i :: 0 <= i < |m.past.starts| ==> m.past.starts[i] < bound)
    && (forall i, j :: 0 <= i < j < |m.past.starts| ==> m.past.starts[i] < m.past.starts[j])
  }

  /** The entry in the slot was not read before the last descriptor hook; on
      StrataFS its read began after the last replacement, at its ticket's time. */
  predicate SlotSound(reread: bool, m: Shared, bound: nat) {
    var e := SlotEntry(m);
    e.Some? && e.value.origin.Read? ==>
      && e.value.origin.began < bound
      && (!reread ==> m.past.lastHook < e.value.origin.began)
      && (reread ==>
            && m.past.lastReplace < e.value.origin.began
            && 1 <= e.value.ticket <= |m.past.starts|
            && e.value.origin.began == m.past.starts[e.value.ticket - 1])
  }

  /** What a window keeps true while other threads run. */
  predicate WindowSound(reread: bool, m: Shared, w: Window, bound: nat) {
    && (w.origin.Read? ==> w.origin.began < bound)
    && (!reread && w.origin.Read? && m.past.epochs == w.epochs ==> m.past.lastHook < w.origin.began)
  }

  predicate ReadWindowSound(reread: bool, m: Shared, w: Window, bound: nat) {
    && WindowSound(reread, m, w, bound)
    && w.origin.Read?
    && (w.entry.Some? && w.entry.value.origin.Read? ==> w.entry.value.origin.began < w.origin.began)
    && (m.past.invalidations == w.invalidations ==> m.past.lastReplace < w.origin.began)
    && (m.past.bumps == w.bumps ==> m.past.lastBump < w.origin.began)
    && (reread ==>
          && 1 <= w.tickets <= |m.past.starts|
          && w.origin.began == m.past.starts[w.tickets - 1]
          && (m.past.invalidations == w.invalidations && m.slot != w.cache ==> PublishedInWindow(m, w)))
  }

  /** A different entry in the slot, with no replacement since the window opened,
      is some reader's publication, and its ticket is near this window's. */
  predicate PublishedInWindow(m: Shared, w: Window) {
    && SlotEntry(m).Some?
    && SlotEntry(m).value.origin.Read?
    && SlotEntry(m).value.ticket == m.past.published
    && -U63 < m.past.published - w.tickets < U63
  }

  predicate SynthWindowSound(m: Shared, w: Window, bound: nat) {
    WindowSound(false, m, w, bound) && w.entry.Some? && w.origin == w.entry.value.origin
  }

  predicate ThreadSound(reread: bool, m: Shared, th: Thread, bound: nat) {
    match th.pc
    case Reading(w) => ReadWindowSound(reread, m, w, bound)
    case ReadBack(w, _) => ReadWindowSound(reread, m, w, bound)
    case Synthesizing(w, _) => SynthWindowSound(m, w, bound)
    case SynthBack(w, _) => SynthWindowSound(m, w, bound)
    case _ => true
  }

  predicate SharedSound(reread: bool, m: Shared, bound: nat) {
    Clocks(m, bound) && SlotSound(reread, m, bound)
  }

  predicate OrderedAt(s: State, bound: nat) {
    && SharedSound(s.reread, s.m, bound)
    && (forall i :: 0 <= i < |s.threads| ==> ThreadSound(s.reread, s.m, s.threads[i], bound))
  }

  ghost predicate Ordered(s: State) {
    Alive(s) && Counts(s) && OrderedAt(s, s.m.past.clock)
  }

  // ----- how a step looks to a window of another thread -----

  /** Counters only grow, and the history changes only with its counter. */
  predicate Move(reread: bool, m: Shared, m': Shared) {
    && m.past.epochs <= m'.past.epochs && m.past.invalidations <= m'.past.invalidations && m.past.bumps <= m'.past.bumps
    && m'.past.invalidations - m.past.invalidations <= m'.past.epochs - m.past.epochs
    && m.past.starts <= m'.past.starts
    && m'.past.clock == m.past.clock
    && (m'.past.invalidations == m.past.invalidations ==> m'.past.lastReplace == m.past.lastReplace)
    && (m'.past.bumps == m.past.bumps ==> m'.past.lastBump == m.past.lastBump)
    && (m'.past.epochs == m.past.epochs ==>
          && m'.past.lastHook == m.past.lastHook
          && m'.slot == m.slot
          && m'.past.published == m.past.published
          && SlotEntry(m') == SlotEntry(m))
    && (m'.past.epochs != m.past.epochs && m'.past.invalidations == m.past.invalidations ==>
          && SlotEntry(m').Some?
          && SlotEntry(m').value.origin.Read?
          && (reread ==> SlotEntry(m').value.ticket == m'.past.published))
  }

  /** Tickets of a publication and of an open window are close. */
  predicate Near(m: Shared, m': Shared, th: Thread) {
    var w := OpenWindow(th.pc);
    w.Some? && m'.past.epochs != m.past.epochs && m'.past.invalidations == m.past.invalidations ==>
      -U63 < m'.past.published - w.value.tickets < U63
  }

  lemma Bystander(reread: bool, m: Shared, m': Shared, th: Thread, bound: nat, bound': nat)
    requires ThreadSound(reread, m, th, bound) && ThreadCounts(reread, m, th) && bound <= bound'
    requires Move(reread, m, m')
    requires reread ==> Near(m, m', th)
    ensures ThreadSound(reread, m', th, bound')
  {
    hide Wrap;
    hide GenerationAfter;
    hide SlotEntry;
  }

  // ----- locked sections -----

  /** What the acting thread's section establishes before time moves on. */
  predicate Established(s: State, r: State, t: nat) {
    && At(s, t) && At(r, t)
    && r.reread == s.reread
    && SharedSound(s.reread, r.m, s.m.past.clock + 1)
    && Move(s.reread, s.m, r.m)
    && ThreadSound(s.reread, r.m, r.threads[t], s.m.past.clock + 1)
  }

  lemma BeginReadEstablishes(s: State, t: nat)
    requires At(s, t) && s.threads[t].pc.Idle?
    requires SharedSound(s.reread, s.m, s.m.past.clock)
    requires s.m.slot.Some? ==> s.m.slot.value in s.m.heap
    ensures Established(s, BeginRead(s, t), t)
  {
    var r := BeginRead(s, t);
    assert SlotEntry(r.m) == SlotEntry(s.m);
    TicketIssued(s.reread, s.m, r.m);
    hide SlotEntry;
    hide Clocks;
    assert Clocks(s.m, s.m.past.clock);
    ReadWindowOpened(s, t);
  }

  lemma TicketIssued(reread: bool, m: Shared, m': Shared)
    requires SharedSound(reread, m, m.past.clock) && SlotEntry(m') == SlotEntry(m)
    requires m' == (if reread
                    then m.(heap := m'.heap, readTicket := Wrap(m.readTicket + 1), past := TicketTaken(m.past))
                    else m.(heap := m'.heap))
    ensures SharedSound(reread, m', m.past.clock + 1) && Move(reread, m, m')
  {
    hide Wrap;
    hide SlotEntry;
  }

  lemma ReadWindowOpened(s: State, t: nat)
    requires At(s, t) && SharedSound(s.reread, s.m, s.m.past.clock)
    requires s.m.slot.Some? ==> s.m.slot.value in s.m.heap
    ensures
      var r := BeginRead(s, t);
      r.threads[t].pc.Reading? && ReadWindowSound(s.reread, r.m, r.threads[t].pc.w, s.m.past.clock + 1)
  {
    hide Wrap;
  }

  lemma AfterPopulateEstablishes(s: State, t: nat, a: Addr, synthesizes: bool)
    requires At(s, t) && s.threads[t].pc.Idle?
    requires SharedSound(s.reread, s.m, s.m.past.clock)
    requires s.m.slot == Some(a) && a in s.m.heap
    ensures Established(s, AfterPopulate(s, t, a, synthesizes), t)
    ensures AfterPopulate(s, t, a, synthesizes).m == s.m.(heap := AfterPopulate(s, t, a, synthesizes).m.heap)
  {
    var r := AfterPopulate(s, t, a, synthesizes);
    assert SlotEntry(r.m) == SlotEntry(s.m);
  }

  lemma LockedEstablishes(s: State, t: nat, synthesizes: bool)
    requires At(s, t) && s.threads[t].pc.Idle?
    requires SharedSound(s.reread, s.m, s.m.past.clock)
    requires s.m.slot.Some? ==> s.m.slot.value in s.m.heap
    ensures Established(s, Locked(s, t, synthesizes), t)
  {
    if Hit(s) {
      AfterPopulateEstablishes(s, t, s.m.slot.value, synthesizes);
    } else {
      BeginReadEstablishes(s, t);
    }
  }

  /** `Established` through an intermediate state that only moved references. */
  lemma EstablishedVia(s: State, s1: State, r: State, t: nat)
    requires At(s, t) && s1.reread == s.reread && Established(s1, r, t)
    requires Move(s.reread, s.m, s1.m) && Move(s.reread, s1.m, r.m) && s1.m.past.clock == s.m.past.clock
    requires s1.m.past.epochs == s.m.past.epochs || r.m.past.epochs == s1.m.past.epochs
    ensures Established(s, r, t)
  {
    hide SlotEntry;
    hide Clocks;
    hide SlotSound;
    hide ThreadSound;
  }

  /** A closed window that must retry. */
  lemma RetryEstablishes(s: State, t: nat, w: Window, made: Option<Addr>, synthesizes: bool)
    requires At(s, t) && Alive(s) && (s.threads[t].pc == ReadBack(w, made) || s.threads[t].pc == SynthBack(w, made))
    requires SharedSound(s.reread, s.m, s.m.past.clock)
    ensures Established(s, Locked(DropBoth(CloseWindow(s, t, w), made, w.cache), t, synthesizes), t)
  {
    hide Balanced;
    hide Locked;
    assert PinsOf(s.threads[t].pc) == One(made) + One(w.cache) + One(None);
    DropBothSection(s, t, w, made, None);
    var s1 := DropBoth(CloseWindow(s, t, w), made, w.cache);
    SlotEntryKept(s, s1);
    if s1.m.slot.Some? { SlotInHeap(s1); }
    LockedEstablishes(s1, t, synthesizes);
    EstablishedVia(s, s1, Locked(s1, t, synthesizes), t);
  }

  lemma ReuseEstablishes(s: State, t: nat, w: Window, made: Option<Addr>, synthesizes: bool)
    requires At(s, t) && Alive(s) && s.threads[t].pc == ReadBack(w, made)
    requires SharedSound(s.reread, s.m, s.m.past.clock)
    requires s.reread && s.m.slot.Some?
    ensures
      var r := AfterPopulate(DropBoth(CloseWindow(s, t, w), made, w.cache), t, s.m.slot.value, synthesizes);
      && Established(s, r, t)
      && r.m == s.m.(heap := r.m.heap)
      && SlotEntry(s.m).Some?
      && r.threads[t].pc == Holding(s.m.slot.value, SlotEntry(s.m).value)
  {
    hide Balanced;
    assert PinsOf(s.threads[t].pc) == One(made) + One(w.cache) + One(None);
    DropBothSection(s, t, w, made, None);
    var s1 := DropBoth(CloseWindow(s, t, w), made, w.cache);
    SlotEntryKept(s, s1);
    SlotInHeap(s1);
    AfterPopulateEstablishes(s1, t, s.m.slot.value, synthesizes);
    EstablishedVia(s, s1, AfterPopulate(s1, t, s.m.slot.value, synthesizes), t);
  }

  lemma PublishEstablishes(s: State, t: nat, w: Window, a: Addr, synthesizes: bool)
    requires At(s, t) && Alive(s) && s.threads[t].pc == ReadBack(w, Some(a))
    requires SharedSound(s.reread, s.m, s.m.past.clock) && ThreadSound(s.reread, s.m, s.threads[t], s.m.past.clock)
    requires Images(s.m) && ThreadCounts(s.reread, s.m, s.threads[t])
    requires Bounded(s.reread, s.m, w) && !ReadOutdated(s, w)
    ensures
      var r := AfterPopulate(DropBoth(PublishRead(CloseWindow(s, t, w), w, a), None, w.cache), t, a, synthesizes);
      && Established(s, r, t)
      && (s.reread ==> r.m.past.published == w.tickets)
      && SlotEntry(r.m) == Some(s.m.heap[a].entry)
  {
    hide Balanced;
    hide Wrap;
    hide GenerationAfter;
    assert PcSound(s.m, t, s.threads[t].pc);
    AcceptedMeansUnchanged(s, w);
    PublishMiddle(s, t, w, a);
    var s2 := DropBoth(PublishRead(CloseWindow(s, t, w), w, a), None, w.cache);
    PublishedShared(s, t, w, a, s2.m);
    AfterPopulateEstablishes(s2, t, a, synthesizes);
    EstablishedVia(s, s2, AfterPopulate(s2, t, a, synthesizes), t);
  }

  lemma PublishedShared(s: State, t: nat, w: Window, a: Addr, m: Shared)
    requires SharedSound(s.reread, s.m, s.m.past.clock) && ReadWindowSound(s.reread, s.m, w, s.m.past.clock)
    requires a in s.m.heap && s.m.heap[a].entry.origin == w.origin && s.m.heap[a].entry.ticket == w.tickets
    requires s.reread ==> s.m.past.invalidations == w.invalidations
    requires !s.reread ==> s.m.past.epochs == w.epochs
    requires m == PublishRead(s, w, a).m.(heap := m.heap, pending := m.pending)
    requires SlotEntry(m) == Some(s.m.heap[a].entry)
    ensures SharedSound(s.reread, m, s.m.past.clock) && Move(s.reread, s.m, m)
  {
    hide Wrap;
    hide GenerationAfter;
    hide SlotEntry;
    PublishedFields(s, w, a, m);
    hide PublishRead;
    ClocksAfter(s.m, m, s.m.past.clock);
    PublishedSlot(s, w, s.m.heap[a].entry, m);
    hide Clocks;
    hide SlotSound;
    hide ReadWindowSound;
  }

  /** Times that did not change, or changed to now. */
  lemma ClocksAfter(m: Shared, m': Shared, bound: nat)
    requires Clocks(m, m.past.clock) && m.past.clock <= bound
    requires m'.past.tickets == m.past.tickets && m'.past.starts == m.past.starts
    requires m'.past.published <= m.past.tickets
    requires m'.past.lastHook < bound && m'.past.lastReplace < bound && m'.past.lastBump < bound
    ensures Clocks(m', bound)
  {}

  lemma PublishedSlot(s: State, w: Window, e: Entry, m: Shared)
    requires ReadWindowSound(s.reread, s.m, w, s.m.past.clock) && SlotEntry(m) == Some(e)
    requires e.origin == w.origin && e.ticket == w.tickets
    requires s.reread ==> s.m.past.invalidations == w.invalidations
    requires !s.reread ==> s.m.past.epochs == w.epochs
    requires m.past.lastHook == s.m.past.lastHook && m.past.lastReplace == s.m.past.lastReplace
    requires m.past.starts == s.m.past.starts
    ensures SlotSound(s.reread, m, s.m.past.clock)
  {
    hide SlotEntry;
  }

  lemma FinishReadEstablishes(s: State, t: nat, w: Window, made: Option<Addr>, synthesizes: bool)
    requires Ordered(s) && At(s, t) && s.threads[t].pc == ReadBack(w, made) && Bounded(s.reread, s.m, w)
    ensures
      var r := FinishRead(s, t, w, made, synthesizes);
      && Established(s, r, t)
      && (s.reread && r.m.past.epochs != s.m.past.epochs && r.m.past.invalidations == s.m.past.invalidations ==>
            r.m.past.published == w.tickets)
  {
    hide Balanced;
    hide Locked;
    hide AfterPopulate;
    hide PublishRead;
    hide Wrap;
    hide GenerationAfter;
    assert ThreadSound(s.reread, s.m, s.threads[t], s.m.past.clock);
    assert ThreadCounts(s.reread, s.m, s.threads[t]);
    if ReadOutdated(s, w) {
      RetryEstablishes(s, t, w, made, synthesizes);
      LockedCounters(DropBoth(CloseWindow(s, t, w), made, w.cache), t, synthesizes);
    } else if made.None? {
      FailEstablishes(s, t, w);
    } else if ReusePublished(s, w) {
      ReuseEstablishes(s, t, w, made, synthesizes);
    } else {
      PublishEstablishes(s, t, w, made.value, synthesizes);
    }
  }

  lemma FailEstablishes(s: State, t: nat, w: Window)
    requires At(s, t) && Alive(s) && (s.threads[t].pc == ReadBack(w, None) || s.threads[t].pc == SynthBack(w, None))
    requires SharedSound(s.reread, s.m, s.m.past.clock)
    ensures
      var r := DropBoth(CloseWindow(s, t, w), None, w.cache);
      Established(s, r, t) && r.m.past.epochs == s.m.past.epochs
  {
    hide Balanced;
    hide Wrap;
    hide GenerationAfter;
    assert PinsOf(s.threads[t].pc) == One(None) + One(w.cache) + One(None);
    DropBothSection(s, t, w, None, None);
    var r := DropBoth(CloseWindow(s, t, w), None, w.cache);
    SlotEntryKept(s, r);
    assert r.threads == CloseWindow(s, t, w).threads;
    hide DropBoth;
    hide Section;
    hide PinsOf;
    hide Clocks;
    ClocksKept(s.m, r.m);
  }

  lemma ClocksKept(m: Shared, m': Shared)
    requires Clocks(m, m.past.clock) && m' == m.(heap := m'.heap)
    ensures Clocks(m', m.past.clock + 1)
  {}

  /** A replacement, whatever it installs, as long as that is not an old read. */
  lemma ReplacedShared(reread: bool, m: Shared, entry: Option<Addr>, m': Shared, hook: bool)
    requires SharedSound(reread, m, m.past.clock)
    requires var q := Replace(m, entry, {});
             m' == q.(heap := m'.heap, pending := m'.pending, works := m'.works, persistQueued := m'.persistQueued,
                      past := if hook then q.past.(lastHook := m.past.clock) else q.past)
    requires SlotEntry(m').Some? && SlotEntry(m').value.origin.Read? ==>
               !reread && !hook && m.past.lastHook < SlotEntry(m').value.origin.began < m.past.clock
    ensures SharedSound(reread, m', m.past.clock + 1) && Move(reread, m, m')
  {
    hide Wrap;
    hide GenerationAfter;
    hide SlotEntry;
    ReplacedFields(m, entry, m', hook);
    hide Replace;
    ClocksAfter(m, m', m.past.clock + 1);
    hide Clocks;
  }

  lemma InstallSynthesisEstablishes(s: State, t: nat, w: Window, a: Addr, synthesizes: bool)
    requires Ordered(s) && At(s, t) && s.threads[t].pc == SynthBack(w, Some(a)) && Bounded(false, s.m, w)
    requires !SynthOutdated(s, w, Some(a))
    ensures
      var r := FinishSynthesis(s, t, w, Some(a), synthesizes);
      && Established(s, r, t)
      && a in s.m.heap
      && r.threads[t].pc == Holding(a, s.m.heap[a].entry)
      && SlotEntry(r.m) == Some(s.m.heap[a].entry)
      && r.m.past.invalidations == s.m.past.invalidations + 1
  {
    hide Balanced;
    hide Wrap;
    hide GenerationAfter;
    assert PcSound(s.m, t, s.threads[t].pc);
    assert ThreadSound(s.reread, s.m, s.threads[t], s.m.past.clock);
    assert ThreadCounts(s.reread, s.m, s.threads[t]);
    WrapInjective(w.epochs, s.m.past.epochs);
    assert PinsOf(s.threads[t].pc) == One(None) + One(w.cache) + One(Some(a));
    DropBothSection(s, t, w, None, Some(a));
    var s2 := DropBoth(CloseWindow(s, t, w), None, w.cache);
    assert One(Some(a))[a] == 1;
    InHeap(s2, One(Some(a)), a);
    var r := FinishSynthesis(s, t, w, Some(a), synthesizes);
    assert SlotEntry(r.m) == Some(s.m.heap[a].entry);
    ReplacedShared(false, s.m, Some(a), r.m, false);
  }

  lemma FinishSynthesisEstablishes(s: State, t: nat, w: Window, made: Option<Addr>, synthesizes: bool)
    requires Ordered(s) && At(s, t) && s.threads[t].pc == SynthBack(w, made) && Bounded(s.reread, s.m, w) && !s.reread
    ensures
      var r := FinishSynthesis(s, t, w, made, synthesizes);
      Established(s, r, t) && (r.m.past.epochs != s.m.past.epochs ==> r.m.past.invalidations != s.m.past.invalidations)
  {
    hide Balanced;
    hide Locked;
    hide Wrap;
    hide GenerationAfter;
    assert PcSound(s.m, t, s.threads[t].pc);
    assert ThreadSound(s.reread, s.m, s.threads[t], s.m.past.clock);
    if SynthOutdated(s, w, made) {
      RetryEstablishes(s, t, w, made, synthesizes);
      LockedCounters(DropBoth(CloseWindow(s, t, w), made, w.cache), t, synthesizes);
    } else if made.None? {
      FailEstablishes(s, t, w);
    } else {
      InstallSynthesisEstablishes(s, t, w, made.value, synthesizes);
    }
  }

  // ----- every action -----

  /** From one thread's section to the whole state; `t` is -1 when no thread acts. */
  lemma OrderedFrom(s: State, r: State, t: int)
    requires Ordered(s) && Alive(Tick(r)) && Counts(Tick(r)) && Quiet(s, r, t)
    requires r.reread == s.reread && SharedSound(s.reread, r.m, s.m.past.clock + 1) && Move(s.reread, s.m, r.m)
    requires 0 <= t < |r.threads| ==> ThreadSound(s.reread, r.m, r.threads[t], s.m.past.clock + 1)
    requires s.reread ==> forall i :: 0 <= i < |s.threads| && i != t ==> Near(s.m, r.m, s.threads[i])
    ensures Ordered(Tick(r))
  {
    hide Balanced;
    hide ThreadSound;
    hide ThreadCounts;
    hide Images;
    var c := s.m.past.clock;
    forall i | 0 <= i < |r.threads| ensures ThreadSound(r.reread, Tick(r).m, Tick(r).threads[i], c + 1) {
      if i != t {
        Bystander(s.reread, s.m, r.m, s.threads[i], c, c + 1);
      }
      Ticked(r.reread, r.m, r.threads[i], c + 1);
    }
  }

  lemma Ticked(reread: bool, m: Shared, th: Thread, bound: nat)
    requires ThreadSound(reread, m, th, bound)
    ensures ThreadSound(reread, m.(past := m.past.(clock := m.past.clock + 1)), th, bound)
  {
  }

  lemma NearWhenBounded(s: State, t: nat, i: nat, r: State)
    requires OrderedAt(s, s.m.past.clock) && Counts(s) && WindowsBounded(s) && s.reread && At(s, t) && At(s, i)
    requires s.threads[t].pc.ReadBack? && r.m.past.published == s.threads[t].pc.w.tickets
    ensures Near(s.m, r.m, s.threads[i])
  {
    hide Wrap;
    hide GenerationAfter;
    assert ThreadSound(s.reread, s.m, s.threads[t], s.m.past.clock);
    assert ThreadSound(s.reread, s.m, s.threads[i], s.m.past.clock);
    assert ThreadCounts(s.reread, s.m, s.threads[i]);
  }

  lemma RelockOrdered(s: State, t: nat, synthesizes: bool)
    requires Ordered(s) && WindowsBounded(s) && At(s, t) && s.threads[t].pc.ReadBack?
    ensures Ordered(Step(s, Relock(t, synthesizes)))
  {
    hide Balanced;
    hide Counts;
    hide FinishRead;
    hide Established;
    hide Quiet;
    var x := Relock(t, synthesizes);
    var pc := s.threads[t].pc;
    var r := Act(s, x);
    assert OpenWindow(pc) == Some(pc.w);
    LookupShape(s, x);
    StepAlive(s, x);
    StepCounts(s, x);
    FinishReadEstablishes(s, t, pc.w, pc.made, synthesizes);
    if s.reread {
      forall i | 0 <= i < |s.threads| && i != t ensures Near(s.m, r.m, s.threads[i]) {
        if r.m.past.epochs != s.m.past.epochs && r.m.past.invalidations == s.m.past.invalidations {
          NearWhenBounded(s, t, i, r);
        }
      }
    }
    EstablishedOrdered(s, r, t);
  }

  lemma EstablishedOrdered(s: State, r: State, t: nat)
    requires Ordered(s) && Alive(Tick(r)) && Counts(Tick(r)) && Quiet(s, r, t) && Established(s, r, t)
    requires s.reread ==> forall i :: 0 <= i < |s.threads| && i != t ==> Near(s.m, r.m, s.threads[i])
    ensures Ordered(Tick(r))
  {
    hide Balanced;
    hide Quiet;
    OrderedFrom(s, r, t);
  }

  lemma SynthRelockOrdered(s: State, t: nat, synthesizes: bool)
    requires Ordered(s) && WindowsBounded(s) && At(s, t) && s.threads[t].pc.SynthBack?
    ensures Ordered(Step(s, SynthRelock(t, synthesizes)))
  {
    hide Balanced;
    hide FinishSynthesis;
    hide Established;
    hide Quiet;
    var x := SynthRelock(t, synthesizes);
    var pc := s.threads[t].pc;
    assert OpenWindow(pc) == Some(pc.w);
    assert ThreadCounts(s.reread, s.m, s.threads[t]);
    LookupShape(s, x);
    StepAlive(s, x);
    StepCounts(s, x);
    FinishSynthesisEstablishes(s, t, pc.w, pc.made, synthesizes);
    EstablishedOrdered(s, Act(s, x), t);
  }

  lemma CallOrdered(s: State, t: nat, synthesizes: bool)
    requires Ordered(s) && At(s, t) && s.threads[t].pc.Idle?
    ensures Ordered(Step(s, Call(t, synthesizes)))
  {
    hide Balanced;
    hide Counts;
    hide Established;
    hide Quiet;
    var x := Call(t, synthesizes);
    var s1 := Enter(s, t);
    if s.m.slot.Some? { SlotInHeap(s); }
    LookupShape(s, x);
    StepAlive(s, x);
    StepCounts(s, x);
    LockedEstablishes(s1, t, synthesizes);
    LockedCounters(s1, t, synthesizes);
    var r := Act(s, x);
    assert Established(s, r, t) by { CallEstablished(s, s1, r, t); }
    EstablishedOrdered(s, r, t);
  }

  lemma CallEstablished(s: State, s1: State, r: State, t: nat)
    requires At(s, t) && s1.reread == s.reread && s1.m == s.m && Established(s1, r, t)
    ensures Established(s, r, t)
  {}

  lemma DoneOrdered(s: State, x: Action)
    requires x.ReadDone? || x.SynthSnapshot? || x.SynthDone?
    requires Ordered(s) && At(s, x.t)
    ensures Ordered(Step(s, x))
  {
    hide Balanced;
    hide Counts;
    hide Quiet;
    LookupShape(s, x);
    StepAlive(s, x);
    StepCounts(s, x);
    var r := Act(s, x);
    assert ThreadSound(s.reread, s.m, s.threads[x.t], s.m.past.clock);
    if s.m.slot.Some? { SlotInHeap(s); }
    assert SlotEntry(r.m) == SlotEntry(s.m);
    DoneEstablishes(s, x);
    EstablishedOrdered(s, r, x.t);
  }

  lemma DoneEstablishes(s: State, x: Action)
    requires x.ReadDone? || x.SynthSnapshot? || x.SynthDone?
    requires OrderedAt(s, s.m.past.clock) && At(s, x.t) && SlotEntry(Lookup(s, x).m) == SlotEntry(s.m)
    ensures Established(s, Lookup(s, x), x.t)
  {
    hide Wrap;
    hide GenerationAfter;
    hide SlotEntry;
    var r := Lookup(s, x);
    var th := s.threads[x.t];
    assert ThreadSound(s.reread, s.m, th, s.m.past.clock);
    DoneMoves(s, x);
    ClocksKept(s.m, r.m);
    hide Clocks;
    assert Move(s.reread, s.m, r.m);
    DoneThreadSound(s, x);
    hide Lookup;
    hide ThreadSound;
    hide Move;
  }

  lemma DoneMoves(s: State, x: Action)
    requires x.ReadDone? || x.SynthSnapshot? || x.SynthDone?
    requires At(s, x.t)
    ensures
      var r := Lookup(s, x);
      && r == s.(m := r.m, threads := r.threads) && |r.threads| == |s.threads| && r.m == s.m.(heap := r.m.heap)
      && (r == s || r.threads[x.t] != s.threads[x.t])
  {}

  lemma DoneThreadSound(s: State, x: Action)
    requires x.ReadDone? || x.SynthSnapshot? || x.SynthDone?
    requires At(s, x.t) && ThreadSound(s.reread, s.m, s.threads[x.t], s.m.past.clock)
    requires SlotEntry(Lookup(s, x).m) == SlotEntry(s.m)
    ensures ThreadSound(s.reread, Lookup(s, x).m, Lookup(s, x).threads[x.t], s.m.past.clock + 1)
  {
    hide SlotEntry;
    var r := Lookup(s, x);
    assert r.m == s.m.(heap := r.m.heap);
    assert OpenWindow(r.threads[x.t].pc) == OpenWindow(s.threads[x.t].pc);
  }

  /** Steps that open no window and move only references and claims. */
  lemma PlainOrdered(s: State, x: Action)
    requires x.Deref? || x.RcuPin? || x.DropProbe? || x.Release? || x.Claim? || x.QueuePersist? || x.PersistStart?
    requires Ordered(s) && At(s, x.t)
    ensures Ordered(Step(s, x))
  {
    hide Balanced;
    hide Counts;
    hide Quiet;
    hide Fast;
    hide Persist;
    if x.Claim? || x.QueuePersist? || x.PersistStart? {
      assert PcSound(s.m, x.t, s.threads[x.t].pc);
      PersistShape(s, x);
      QueueStepIsPlain(s, x);
    } else {
      FastShape(s, x);
      FastStepIsPlain(s, x);
    }
    StepAlive(s, x);
    StepCounts(s, x);
    ActAlive(s, x);
    SlotEntryKept(s, Act(s, x));
    PlainEstablishes(s, Act(s, x), x.t);
    EstablishedOrdered(s, Act(s, x), x.t);
  }

  lemma PlainEstablishes(s: State, r: State, t: nat)
    requires OrderedAt(s, s.m.past.clock) && Counts(s) && Plain(s, r, t) && SlotEntry(r.m) == SlotEntry(s.m)
    ensures Established(s, r, t)
  {
    hide Wrap;
    hide GenerationAfter;
    hide SlotEntry;
    assert ThreadSound(s.reread, s.m, s.threads[t], s.m.past.clock);
    assert ThreadCounts(s.reread, s.m, s.threads[t]);
    assert Move(s.reread, s.m, r.m);
    if r.threads[t] == s.threads[t] {
      Bystander(s.reread, s.m, r.m, s.threads[t], s.m.past.clock, s.m.past.clock + 1);
    }
  }

  lemma WriteBackOrdered(s: State, x: Action)
    requires x.PersistWritten? || x.Promote?
    requires Ordered(s) && At(s, x.t)
    ensures Ordered(Step(s, x))
  {
    hide Balanced;
    hide Counts;
    hide Quiet;
    hide Persist;
    hide Established;
    hide ThreadSound;
    hide SharedSound;
    var t := x.t;
    var r := Act(s, x);
    assert PcSound(s.m, t, s.threads[t].pc);
    PersistShape(s, x);
    StepAlive(s, x);
    StepCounts(s, x);
    ActAlive(s, x);
    WriteBackEstablishes(s, x, r);
    EstablishedOrdered(s, r, t);
  }

  lemma WriteBackEstablishes(s: State, x: Action, r: State)
    requires x.PersistWritten? || x.Promote?
    requires OrderedAt(s, s.m.past.clock) && Counts(s) && Alive(s) && At(s, x.t)
    requires r == Persist(s, x) && Balanced(r, multiset{})
    ensures Established(s, r, x.t)
    ensures r.m.past.epochs == s.m.past.epochs || r.m.past.invalidations != s.m.past.invalidations
  {
    hide Balanced;
    hide Wrap;
    hide GenerationAfter;
    var t := x.t;
    assert PcSound(s.m, t, s.threads[t].pc);
    assert ThreadSound(s.reread, s.m, s.threads[t], s.m.past.clock);
    if r.m.past.epochs == s.m.past.epochs {
      WriteBackIsPlain(s, x);
      SlotEntryKept(s, r);
      PlainEstablishes(s, r, t);
    } else if x.PersistWritten? {
      ReplacedShared(s.reread, s.m, None, r.m, true);
    } else {
      ReplacedShared(s.reread, s.m, Some(s.threads[t].pc.a), r.m, false);
    }
  }

  lemma OutsideOrdered(s: State, x: Action)
    requires x.SetSecurity? || x.PostSetxattr? || x.Invalidate? || x.BumpGeneration? || x.GracePeriod?
    requires Ordered(s)
    ensures Ordered(Step(s, x))
  {
    hide Balanced;
    hide Counts;
    hide Quiet;
    hide SharedSound;
    hide Move;
    var r := Act(s, x);
    OutsideShape(s, x);
    StepAlive(s, x);
    StepCounts(s, x);
    ActAlive(s, x);
    OutsideShared(s, x, r);
    OrderedFrom(s, r, -1);
  }

  lemma OutsideShared(s: State, x: Action, r: State)
    requires x.SetSecurity? || x.PostSetxattr? || x.Invalidate? || x.BumpGeneration? || x.GracePeriod?
    requires Alive(s) && Alive(r) && SharedSound(s.reread, s.m, s.m.past.clock) && r == Outside(s, x)
    ensures SharedSound(s.reread, r.m, s.m.past.clock + 1) && Move(s.reread, s.m, r.m)
    ensures r.m.past.epochs == s.m.past.epochs || r.m.past.invalidations != s.m.past.invalidations
  {
    hide Balanced;
    hide Wrap;
    if x.BumpGeneration? || x.GracePeriod? {
      if x.GracePeriod? {
        assert Derived(s.m.heap, r.m.heap);
      }
      SlotEntryKept(s, r);
    } else {
      OutsideReplaces(s, x, r);
    }
  }

  lemma OutsideReplaces(s: State, x: Action, r: State)
    requires x.SetSecurity? || x.PostSetxattr? || x.Invalidate?
    requires SharedSound(s.reread, s.m, s.m.past.clock) && r == Outside(s, x)
    ensures SharedSound(s.reread, r.m, s.m.past.clock + 1) && Move(s.reread, s.m, r.m)
    ensures r.m.past.epochs == s.m.past.epochs || r.m.past.invalidations != s.m.past.invalidations
  {
    hide Wrap;
    match x {
      case SetSecurity(_, at) =>
        if at !in s.m.heap { ReplacedShared(s.reread, s.m, Some(at), r.m, true); }
      case PostSetxattr | Invalidate => ReplacedShared(s.reread, s.m, None, r.m, true);
    }
    hide SharedSound;
    hide Move;
  }

  lemma StepOrdered(s: State, x: Action)
    requires Ordered(s) && WindowsBounded(s)
    ensures Ordered(Step(s, x))
  {
    hide Balanced;
    hide Quiet;
    if x.SetSecurity? || x.PostSetxattr? || x.Invalidate? || x.BumpGeneration? || x.GracePeriod? {
      OutsideOrdered(s, x);
    } else if !At(s, x.t) {
      NobodyActs(s, x);
      IdleStepOrdered(s, x);
    } else if x.PersistWritten? || x.Promote? {
      WriteBackOrdered(s, x);
    } else if x.Call? && s.threads[x.t].pc.Idle? {
      CallOrdered(s, x.t, x.synthesizes);
    } else if x.Relock? && s.threads[x.t].pc.ReadBack? {
      RelockOrdered(s, x.t, x.synthesizes);
    } else if x.SynthRelock? && s.threads[x.t].pc.SynthBack? {
      assert ThreadCounts(s.reread, s.m, s.threads[x.t]);
      SynthRelockOrdered(s, x.t, x.synthesizes);
    } else if x.Call? || x.Relock? || x.SynthRelock? {
      IdleStepOrdered(s, x);
    } else if x.ReadDone? || x.SynthSnapshot? || x.SynthDone? {
      DoneOrdered(s, x);
    } else {
      PlainOrdered(s, x);
    }
  }

  lemma IdleStepOrdered(s: State, x: Action)
    requires Ordered(s) && Act(s, x) == s
    ensures Ordered(Step(s, x))
  {
    hide Balanced;
    hide Counts;
    hide Act;
    StepAlive(s, x);
    StepCounts(s, x);
    assert Quiet(s, s, -1);
    OrderedFrom(s, s, -1);
  }

  /** The invariant holds in every state of every bounded schedule. */
  lemma {:induction false} AlwaysOrdered(reread: bool, n: nat, xs: seq<Action>)
    requires BoundedRun(Init(reread, n), xs)
    ensures Ordered(Execute(Init(reread, n), xs))
  {
    hide Balanced;
    AlwaysCounts(reread, n, xs);
    var s0 := Init(reread, n);
    if xs == [] {
      InitRefs(reread, n);
    } else {
      var ys := xs[..|xs| - 1];
      forall k | 0 <= k <= |ys| ensures WindowsBounded(Execute(s0, ys[..k])) {
        assert ys[..k] == xs[..k];
      }
      AlwaysOrdered(reread, n, ys);
      assert WindowsBounded(Execute(s0, xs[..|ys|]));
      StepOrdered(Execute(s0, ys), xs[|xs| - 1]);
    }
  }
}
