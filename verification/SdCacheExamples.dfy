/** Concrete schedules of the cache protocol that show where its guarantees end: a read
    that misses 2^64 hooks, an old entry that the ticket comparison takes for a new one,
    and two write-backs of one inode that are writing at the same time. */
module SdCacheExamples {
  import opened Widths
  import opened SdCacheMachine
  import opened SdCacheSteps

  function Repeat(x: Action, k: nat): seq<Action> {
    if k == 0 then [] else Repeat(x, k - 1) + [x]
  }

  lemma OneMore(s: State, xs: seq<Action>, x: Action)
    ensures Execute(s, xs + [x]) == Step(Execute(s, xs), x)
  {
    hide Step;
    assert (xs + [x])[..|xs|] == xs;
  }

  // ----- a read that misses every hook -----

  predicate Counts(m: Shared) {
    m.slot.None? && m.epoch == Wrap(m.past.epochs) && m.invalidation == Wrap(m.past.invalidations)
  }

  /** One hook on an empty slot only counts. */
  predicate Hooked(s: State, r: State) {
    && r == s.(m := r.m) && Counts(r.m)
    && r.m.heap == s.m.heap && r.m.generation == s.m.generation && r.m.past.clock == s.m.past.clock + 1
    && r.m.past.epochs == s.m.past.epochs + 1 && r.m.past.invalidations == s.m.past.invalidations + 1
    && r.m.past.lastHook == s.m.past.clock
  }

  lemma OneHook(s: State)
    requires Counts(s.m)
    ensures Hooked(s, Step(s, PostSetxattr))
  {
    assert Wrap(Wrap(s.m.past.epochs) + 1) == Wrap(s.m.past.epochs + 1);
    assert Wrap(Wrap(s.m.past.invalidations) + 1) == Wrap(s.m.past.invalidations + 1);
    hide Wrap;
  }

  lemma {:induction false} HooksPass(s: State, k: nat)
    requires Counts(s.m)
    ensures
      var r := Execute(s, Repeat(PostSetxattr, k));
      && r == s.(m := r.m) && Counts(r.m)
      && r.m.heap == s.m.heap && r.m.generation == s.m.generation && r.m.past.clock == s.m.past.clock + k
      && r.m.past.epochs == s.m.past.epochs + k && r.m.past.invalidations == s.m.past.invalidations + k
      && (k > 0 ==> r.m.past.lastHook >= s.m.past.clock)
  {
    hide Step;
    hide Wrap;
    if k > 0 {
      HooksPass(s, k - 1);
      OneMore(s, Repeat(PostSetxattr, k - 1), PostSetxattr);
      OneHook(Execute(s, Repeat(PostSetxattr, k - 1)));
    }
  }

  /** The first lookup on an empty slot has begun to read. */
  lemma FirstCall(reread: bool, n: nat, synthesizes: bool)
    requires n > 0
    ensures
      var s := Step(Init(reread, n), Call(0, synthesizes));
      && |s.threads| == n && s.threads[0].pc.Reading? && s.reread == reread
      && (forall i :: 0 < i < n ==> s.threads[i].pc.Idle?)
      && s.m == Init(reread, n).m.(readTicket := if reread then 1 else 0, past := s.m.past)
      && s.m.past.clock == 2 && s.m.past.epochs == 0 && s.m.past.invalidations == 0
      && s.threads[0].pc.w.origin == Read(1) && s.threads[0].pc.w.cache.None?
      && s.threads[0].pc.w.epoch == 0 && s.threads[0].pc.w.invalidation == 0 && s.threads[0].pc.w.generation == 0
      && (reread ==> s.threads[0].pc.w.ticket == 1)
  {}

  function Missing(): seq<Action> {
    [Call(0, false)] + Repeat(PostSetxattr, U64) + [ReadDone(0, Stored([1]), 0)] + [Relock(0, false)]
  }

  /** On either kind of mount: after 2^64 descriptor hooks inside one read the lookup
      selects bytes whose read began before all of them. */
  lemma MissedAfterAFullRound(reread: bool)
    ensures Missed(Execute(Init(reread, 1), Missing()))
    ensures Execute(Init(reread, 1), Missing()).m.past.invalidations == U64
  {
    hide Step;
    hide Wrap;
    var s0 := Init(reread, 1);
    var call, hooks, done := [Call(0, false)], Repeat(PostSetxattr, U64), ReadDone(0, Stored([1]), 0);
    hide Repeat;
    assert [] + call == call;
    OneMore(s0, [], Call(0, false));
    ExecuteAppend(s0, call, hooks);
    OneMore(s0, call + hooks, done);
    OneMore(s0, call + hooks + [done], Relock(0, false));
    HooksMissed(reread);
    hide Execute;
  }

  predicate Missed(r: State) {
    && |r.threads| == 1 && r.threads[0].pc.Holding? && SlotEntry(r.m) == Some(r.threads[0].pc.e)
    && r.threads[0].pc.e.origin.Read? && r.threads[0].pc.e.origin.began < r.m.past.lastHook
  }

  lemma HooksMissed(reread: bool)
    ensures
      var s := Execute(Step(Init(reread, 1), Call(0, false)), Repeat(PostSetxattr, U64));
      var r := Step(Step(s, ReadDone(0, Stored([1]), 0)), Relock(0, false));
      Missed(r) && r.m.past.invalidations == U64
  {
    hide Step;
    hide Execute;
    FirstCall(reread, 1, false);
    var s1 := Step(Init(reread, 1), Call(0, false));
    HooksPass(s1, U64);
    hide Repeat;
    ReadEnds(Execute(s1, Repeat(PostSetxattr, U64)));
  }

  /** An undisturbed read of a stored descriptor is published and held. */
  lemma ReadEnds(s: State)
    requires |s.threads| == 1 && s.threads[0].pc.Reading? && s.m.heap == map[] && s.m.slot.None?
    requires
      var w := s.threads[0].pc.w;
      && w.cache.None? && w.epoch == s.m.epoch && w.invalidation == s.m.invalidation && w.generation == s.m.generation
    ensures
      var r := Step(Step(s, ReadDone(0, Stored([1]), 0)), Relock(0, false));
      && |r.threads| == 1 && r.threads[0].pc.Holding? && r.threads[0].pc.a == 0 && r.m.slot == Some(0)
      && SlotEntry(r.m) == Some(r.threads[0].pc.e) && r.m.heap.Keys == {0} && r.m.heap[0].refs == 2
      && r.threads[0].pc.e.origin == s.threads[0].pc.w.origin && r.reread == s.reread
      && (s.reread ==> r.m.publishedTicket == s.threads[0].pc.w.ticket) && r.m.readTicket == s.m.readTicket
      && r.m.past.clock == s.m.past.clock + 2
      && r.m.past.lastHook == s.m.past.lastHook && r.m.past.invalidations == s.m.past.invalidations
  {
    var s3 := Step(s, ReadDone(0, Stored([1]), 0));
    assert s3.threads[0].pc == ReadBack(s.threads[0].pc.w, Some(0));
    assert !ReadOutdated(s3, s.threads[0].pc.w) && !ReusePublished(s3, s.threads[0].pc.w);
    hide Wrap;
  }

  // ----- an entry that outlives the tickets -----

  const FAILING := [Call(0, false), ReadDone(0, ReadFailed, 9), Relock(0, false)]

  function Rounds(k: nat): seq<Action> {
    if k == 0 then [Call(0, false), ReadDone(0, Stored([1]), 0), Relock(0, false), Release(0)]
    else Rounds(k - 1) + FAILING
  }

  /** The first read's entry is still in the slot after `k` failed reads. */
  predicate Survives(s: State, k: nat) {
    && s.reread && |s.threads| == 1 && s.threads[0].pc.Idle?
    && s.m.slot == Some(0) && 0 in s.m.heap && s.m.heap.Keys == {0} && s.m.heap[0].refs == 1
    && s.m.heap[0].entry.origin == Read(1) && s.m.past.clock > 1
    && s.m.publishedTicket == Wrap(1) && s.m.readTicket == Wrap(1 + k)
  }

  lemma FirstRead()
    ensures Survives(Execute(Init(true, 1), Rounds(0)), 0)
  {
    hide Step;
    var s0 := Init(true, 1);
    var a, b, c, d := Call(0, false), ReadDone(0, Stored([1]), 0), Relock(0, false), Release(0);
    assert Rounds(0) == [] + [a] + [b] + [c] + [d];
    OneMore(s0, [], a);
    OneMore(s0, [] + [a], b);
    OneMore(s0, [] + [a] + [b], c);
    OneMore(s0, [] + [a] + [b] + [c], d);
    hide Execute;
    FirstCall(true, 1, false);
    ReadEnds(Step(s0, a));
    LetGo(Step(Step(Step(s0, a), b), c));
  }

  lemma LetGo(s: State)
    requires |s.threads| == 1 && s.threads[0].pc.Holding? && s.threads[0].pc.a == 0
    requires s.m.heap.Keys == {0} && s.m.heap[0].refs == 2
    ensures
      var r := Step(s, Release(0));
      && |r.threads| == 1 && r.threads[0].pc.Idle? && r.reread == s.reread
      && r.m == s.m.(heap := r.m.heap, past := r.m.past) && r.m.past.clock == s.m.past.clock + 1
      && r.m.heap.Keys == {0} && r.m.heap[0].refs == 1 && r.m.heap[0].entry == s.m.heap[0].entry
  {}

  /** A failing read has begun over the surviving entry. */
  predicate Rereading(s: State, k: nat) {
    && s.reread && |s.threads| == 1 && s.threads[0].pc.Reading?
    && s.m.slot == Some(0) && 0 in s.m.heap && s.m.heap.Keys == {0} && s.m.heap[0].refs == 2
    && s.m.heap[0].entry.origin == Read(1) && s.m.past.clock > 2
    && s.m.publishedTicket == Wrap(1) && s.m.readTicket == Wrap(1 + k)
    && var w := s.threads[0].pc.w;
       && w.cache == Some(0) && w.invalidation == s.m.invalidation && w.generation == s.m.generation
       && w.ticket == s.m.readTicket && w.origin == Read(s.m.past.clock - 1)
  }

  lemma BeginsRereading(s: State, k: nat)
    requires Survives(s, k)
    ensures Rereading(Step(s, Call(0, false)), k + 1)
  {
    assert Wrap(Wrap(1 + k) + 1) == Wrap(2 + k);
    hide Wrap;
  }

  lemma FailedRead(s: State, k: nat)
    requires Rereading(s, k)
    ensures Survives(Step(Step(s, FAILING[1]), FAILING[2]), k)
  {
    hide Wrap;
    var w := s.threads[0].pc.w;
    var s2 := Step(s, FAILING[1]);
    assert s2.threads[0].pc == ReadBack(w, None) && !ReadOutdated(s2, w);
    assert UnrefOption(s2.m.heap, Some(0)).Keys == {0};
  }

  lemma ThreeMore(s: State, xs: seq<Action>, a: Action, b: Action, c: Action)
    ensures Execute(s, xs + [a, b, c]) == Step(Step(Step(Execute(s, xs), a), b), c)
  {
    hide Step;
    assert xs + [a, b, c] == xs + [a] + [b] + [c];
    OneMore(s, xs, a);
    OneMore(s, xs + [a], b);
    OneMore(s, xs + [a] + [b], c);
  }

  function FailOnce(s: State): State {
    Step(Step(Step(s, FAILING[0]), FAILING[1]), FAILING[2])
  }

  lemma NextRound(s: State, k: nat)
    requires Survives(s, k)
    ensures Survives(FailOnce(s), k + 1)
  {
    hide Survives;
    hide Rereading;
    hide Step;
    BeginsRereading(s, k);
    FailedRead(Step(s, FAILING[0]), k + 1);
  }

  lemma RoundsGrow(k: nat)
    ensures Execute(Init(true, 1), Rounds(k + 1)) == FailOnce(Execute(Init(true, 1), Rounds(k)))
  {
    hide Step;
    var xs := Rounds(k);
    assert Rounds(k + 1) == xs + [FAILING[0], FAILING[1], FAILING[2]];
    hide Rounds;
    ThreeMore(Init(true, 1), xs, FAILING[0], FAILING[1], FAILING[2]);
  }

  lemma {:induction false} AfterRounds(k: nat)
    ensures Survives(Execute(Init(true, 1), Rounds(k)), k)
  {
    hide Survives;
    hide FailOnce;
    hide Execute;
    hide Rounds;
    if k == 0 {
      FirstRead();
    } else {
      AfterRounds(k - 1);
      RoundsGrow(k - 1);
      NextRound(Execute(Init(true, 1), Rounds(k - 1)), k - 1);
    }
  }

  lemma ComparisonFails(k: nat)
    requires U63 < k < U64
    ensures SignedDiff(Wrap(1), Wrap(1 + k)) > 0
  {}

  /** Without the guard that the slot's entry is not the reader's own pinned one the
      comparison would be wrong: for every `k` between 2^63 and 2^64 the entry of the
      first read, still in the slot after `k - 1` failed ones, compares as newer than the
      read that has just finished.  The guard is what stops it from being reused. */
  lemma GuardIsNeeded(k: nat)
    requires U63 < k < U64
    ensures Fooled(Execute(Init(true, 1), Rounds(k - 1) + [Call(0, false)] + [ReadDone(0, Stored([2]), 1)]))
  {
    hide Fooled;
    hide Step;
    var s0, xs := Init(true, 1), Rounds(k - 1);
    AfterRounds(k - 1);
    hide Rounds;
    hide Survives;
    OneMore(s0, xs, Call(0, false));
    OneMore(s0, xs + [Call(0, false)], ReadDone(0, Stored([2]), 1));
    hide Execute;
    hide Rereading;
    BeginsRereading(Execute(s0, xs), k - 1);
    LastRead(Step(Execute(s0, xs), Call(0, false)), k);
  }

  /** The slot's entry is older than the finished read and compares as newer; only the
      guard keeps it from being reused. */
  predicate Fooled(s: State) {
    && |s.threads| == 1 && s.threads[0].pc.ReadBack?
    && var w := s.threads[0].pc.w;
       && !ReadOutdated(s, w) && SlotEntry(s.m).Some?
       && SlotEntry(s.m).value.origin.Read? && w.origin.Read?
       && SlotEntry(s.m).value.origin.began < w.origin.began
       && SignedDiff(s.m.publishedTicket, w.ticket) > 0
       && s.m.slot == w.cache && !ReusePublished(s, w)
  }

  lemma LastRead(s: State, k: nat)
    requires U63 < k < U64 && Rereading(s, k)
    ensures Fooled(Step(s, ReadDone(0, Stored([2]), 1)))
  {
    ComparisonFails(k);
    hide SignedDiff;
    hide Wrap;
  }

  // ----- two write-backs at once -----

  /** A lookup by thread 0 that synthesized a descriptor to be written back. */
  function Holder(): State {
    var s1 := Step(Step(Init(false, 2), Call(0, true)), ReadDone(0, NoDescriptor, 0));
    var s2 := Step(Step(s1, Relock(0, true)), SynthSnapshot(0));
    Step(Step(s2, SynthDone(0, Synthesized([1], true), 1)), SynthRelock(0, true))
  }

  /** Entry 1 in the slot is to be written back, and nobody has claimed that. */
  predicate Pending(s: State) {
    && |s.threads| == 2 && !s.reread && !s.m.persistQueued && s.m.works == multiset{}
    && s.m.slot == Some(1) && 1 in s.m.heap && s.m.generation == 0
    && var e := s.m.heap[1].entry;
       e.state.Valid? && e.source.SyntheticPending? && e.bytes == [1] && e.generation == 0
  }

  predicate Holds(s: State, t: nat) {
    Pending(s) && s.m.heap[1].refs == 2 && t < 2 && s.threads[t].pc == Holding(1, s.m.heap[1].entry)
  }

  lemma MissingFound(s: State)
    requires |s.threads| == 2 && s.threads[0].pc.Reading? && !s.reread
    requires s.m == Init(false, 2).m.(past := s.m.past)
    requires
      var w := s.threads[0].pc.w;
      w.cache.None? && w.epoch == 0 && w.generation == 0
    ensures
      var r := Step(Step(s, ReadDone(0, NoDescriptor, 0)), Relock(0, true));
      && r.threads == s.threads[0 := r.threads[0]] && r.threads[0].pc.Synthesizing? && !r.reread
      && r.threads[0].pc.tag.None? && r.threads[0].pc.w.cache == Some(0) && r.threads[0].pc.w.epoch == r.m.epoch
      && r.m.slot == Some(0) && r.m.heap.Keys == {0} && r.m.heap[0].refs == 2
      && r.m.heap[0].entry.source.FromMissing? && r.m.heap[0].entry.generation == 0
      && r.m.generation == 0 && !r.m.persistQueued && r.m.works == multiset{}
  {
    var s2 := Step(s, ReadDone(0, NoDescriptor, 0));
    assert s2.threads[0].pc == ReadBack(s.threads[0].pc.w, Some(0)) && !ReadOutdated(s2, s.threads[0].pc.w);
    hide Wrap;
  }

  lemma SynthesisHeld(s: State)
    requires |s.threads| == 2 && s.threads[0].pc.Synthesizing? && !s.reread
    requires s.threads[0].pc.tag.None? && s.threads[0].pc.w.cache == Some(0) && s.threads[0].pc.w.epoch == s.m.epoch
    requires s.m.slot == Some(0) && s.m.heap.Keys == {0} && s.m.heap[0].refs == 2
    requires s.m.heap[0].entry.source.FromMissing? && s.m.heap[0].entry.generation == 0
    requires s.m.generation == 0 && !s.m.persistQueued && s.m.works == multiset{}
    ensures
      var r := Step(Step(Step(s, SynthSnapshot(0)), SynthDone(0, Synthesized([1], true), 1)), SynthRelock(0, true));
      Holds(r, 0) && r.threads == s.threads[0 := r.threads[0]]
  {
    var s4 := Step(s, SynthSnapshot(0));
    assert s4.threads[0].pc == Synthesizing(s.threads[0].pc.w, Some(0));
    var s5 := Step(s4, SynthDone(0, Synthesized([1], true), 1));
    assert s5.threads[0].pc == SynthBack(s.threads[0].pc.w, Some(1)) && s5.m.heap[1].entry.source.SyntheticPending?;
    assert !SynthOutdated(s5, s.threads[0].pc.w, Some(1));
    hide Wrap;
  }

  lemma HolderIs()
    ensures Holds(Holder(), 0) && Holder().threads[1].pc.Idle?
  {
    hide Step;
    FirstCall(false, 2, true);
    var s1 := Step(Init(false, 2), Call(0, true));
    MissingFound(s1);
    SynthesisHeld(Step(Step(s1, ReadDone(0, NoDescriptor, 0)), Relock(0, true)));
  }

  /** The thread claims, queues, lets go, and on its way out starts its own work. */
  function WritesBack(s: State, t: nat): State {
    Step(Step(Step(Step(s, Claim(t)), QueuePersist(t, true)), Release(t)), PersistStart(t))
  }

  lemma QueuesAndLetsGo(s: State, t: nat)
    requires Holds(s, t)
    ensures
      var r := Step(Step(Step(s, Claim(t)), QueuePersist(t, true)), Release(t));
      && r.threads == s.threads[t := s.threads[t].(pc := Idle)] && r.reread == s.reread
      && r.m == s.m.(persistQueued := true, works := multiset{t}, heap := r.m.heap, past := r.m.past)
      && 1 in r.m.heap && r.m.heap[1] == s.m.heap[1].(refs := 1)
  {
    var s1 := Step(s, Claim(t));
    assert s1.threads[t].pc == Claimed(1, s.m.heap[1].entry);
    var s2 := Step(s1, QueuePersist(t, true));
    assert s2.threads[t].pc == Holding(1, s.m.heap[1].entry) && s2.m.works == multiset{} + multiset{t};
  }

  lemma StartsWriting(s: State, t: nat)
    requires t < |s.threads| == 2 && s.threads[t].pc.Idle? && s.m.works == multiset{t}
    requires Pending(s.(m := s.m.(persistQueued := false, works := multiset{})))
    ensures
      var r := Step(s, PersistStart(t));
      && Pending(r) && r.m.heap == s.m.heap
      && r.threads == s.threads[t := r.threads[t]] && r.threads[t].pc.PersistWriting?
  {
    assert s.m.works - multiset{t} == multiset{};
  }

  lemma WritesBackIs(s: State, t: nat)
    requires Holds(s, t)
    ensures
      var r := WritesBack(s, t);
      && Pending(r) && r.m.heap[1].refs == 1
      && r.threads[t].pc.PersistWriting? && r.threads[1 - t] == s.threads[1 - t]
  {
    hide Step;
    QueuesAndLetsGo(s, t);
    StartsWriting(Step(Step(Step(s, Claim(t)), QueuePersist(t, true)), Release(t)), t);
  }

  lemma FindsPending(s: State, t: nat)
    requires Pending(s) && s.m.heap[1].refs == 1 && t < 2 && s.threads[t].pc.Idle?
    ensures
      var r := Step(s, Call(t, true));
      Holds(r, t) && r.threads[1 - t] == s.threads[1 - t]
  {
    assert Hit(Enter(s, t));
  }

  /** The claim only covers queueing: while thread 0 is writing, thread 1 finds the same
      pending entry, claims it and starts writing too, each in its own task work. */
  lemma TwoWriteBacksAtOnce()
    ensures
      var r := WritesBack(Step(WritesBack(Holder(), 0), Call(1, true)), 1);
      |r.threads| == 2 && r.threads[0].pc.PersistWriting? && r.threads[1].pc.PersistWriting?
  {
    hide Step;
    HolderIs();
    var s0 := Holder();
    hide Holder;
    hide WritesBack;
    WritesBackIs(s0, 0);
    FindsPending(WritesBack(s0, 0), 1);
    WritesBackIs(Step(WritesBack(s0, 0), Call(1, true)), 1);
  }
}
