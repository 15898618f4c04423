/** Reference conservation for the descriptor cache: in every reachable state an
    entry's count is the slot's reference plus the threads' pins plus the releases
    RCU still owes, so nothing is freed while it is in use and nothing leaks. */
module SdCacheReferences {
  import opened Widths
  import opened Descriptors
  import opened SdCacheMachine

  // ----- counting -----

  function One(a: Option<Addr>): multiset<Addr> {
    if a.Some? then multiset{a.value} else multiset{}
  }

  /** The references a thread owns at a program point. */
  function PinsOf(pc: Pc): multiset<Addr> {
    match pc
    case Idle | InRcu(_, _) | PersistWriting(_) => multiset{}
    case Probed(a, _) => multiset{a}
    case Holding(a, _) => multiset{a}
    case Claimed(a, _) => multiset{a}
    case Promoting(a, _) => multiset{a}
    case Reading(w) => One(w.cache)
    case Synthesizing(w, _) => One(w.cache)
    case ReadBack(w, made) => One(w.cache) + One(made)
    case SynthBack(w, made) => One(w.cache) + One(made)
  }

  function Pins(threads: seq<Thread>, a: Addr): nat {
    if threads == [] then 0
    else PinsOf(threads[0].pc)[a] + Pins(threads[1..], a)
  }

  /** The releases of `a` that RCU has queued and not yet run. */
  function Waiting(pending: seq<Deferred>, a: Addr): nat {
    if pending == [] then 0
    else (if pending[0].entry == a then 1 else 0) + Waiting(pending[1..], a)
  }

  function Held(s: State, a: Addr): nat {
    One(s.m.slot)[a] + Pins(s.threads, a) + Waiting(s.m.pending, a)
  }

  function Count(h: Heap, a: Addr): nat {
    if a in h then h[a].refs else 0
  }

  /** `floating` holds the references a half-finished section keeps in locals. */
  ghost predicate Balanced(s: State, floating: multiset<Addr>) {
    && (forall a :: Count(s.m.heap, a) == Held(s, a) + floating[a])
    && (forall a :: a in s.m.heap ==> s.m.heap[a].refs > 0)
  }

  lemma {:induction false} PinsUpdate(threads: seq<Thread>, t: nat, th: Thread, a: Addr)
    requires t < |threads|
    ensures Pins(threads[t := th], a) + PinsOf(threads[t].pc)[a] == Pins(threads, a) + PinsOf(th.pc)[a]
  {
    if t == 0 {
      assert threads[t := th][1..] == threads[1..];
    } else {
      assert threads[t := th][1..] == threads[1..][t - 1 := th];
      PinsUpdate(threads[1..], t - 1, th, a);
    }
  }

  lemma {:induction false} PinsAtLeast(threads: seq<Thread>, t: nat, a: Addr)
    requires t < |threads|
    ensures PinsOf(threads[t].pc)[a] <= Pins(threads, a)
  {
    if t > 0 {
      PinsAtLeast(threads[1..], t - 1, a);
    }
  }

  lemma {:induction false} WaitingAppend(p: seq<Deferred>, q: seq<Deferred>, a: Addr)
    ensures Waiting(p + q, a) == Waiting(p, a) + Waiting(q, a)
  {
    if p == [] {
      assert p + q == q;
    } else {
      assert (p + q)[1..] == p[1..] + q;
      WaitingAppend(p[1..], q, a);
    }
  }

  lemma WaitingRemove(p: seq<Deferred>, k: nat, a: Addr)
    requires k < |p|
    ensures Waiting(p, a) == Waiting(p[..k] + p[k + 1..], a) + (if p[k].entry == a then 1 else 0)
  {
    assert p == p[..k] + ([p[k]] + p[k + 1..]);
    WaitingAppend(p[..k], [p[k]] + p[k + 1..], a);
    WaitingAppend([p[k]], p[k + 1..], a);
    WaitingAppend(p[..k], p[k + 1..], a);
  }

  lemma {:induction false} WaitingAtLeast(p: seq<Deferred>, k: nat)
    requires k < |p|
    ensures Waiting(p, p[k].entry) >= 1
  {
    if k > 0 {
      WaitingAtLeast(p[1..], k - 1);
    }
  }

  lemma {:induction false} WaitingLeave(p: seq<Deferred>, t: nat, a: Addr)
    ensures Waiting(LeaveRcu(p, t), a) == Waiting(p, a)
  {
    if p != [] {
      assert LeaveRcu(p, t)[1..] == LeaveRcu(p[1..], t);
      WaitingLeave(p[1..], t, a);
    }
  }

  // ----- what each primitive does to the balance -----

  lemma SwapThread(s: State, t: nat, th: Thread, f: multiset<Addr>, g: multiset<Addr>)
    requires At(s, t) && Balanced(s, f)
    requires f + PinsOf(s.threads[t].pc) == g + PinsOf(th.pc)
    ensures Balanced(s.(threads := s.threads[t := th]), g)
  {
    forall a ensures Count(s.m.heap, a) == Held(s.(threads := s.threads[t := th]), a) + g[a] {
      PinsUpdate(s.threads, t, th, a);
      assert (f + PinsOf(s.threads[t].pc))[a] == (g + PinsOf(th.pc))[a];
    }
  }

  lemma AddRef(s: State, a: Addr, f: multiset<Addr>)
    requires Balanced(s, f) && a in s.m.heap
    ensures Balanced(SetHeap(s, Ref(s.m.heap, a)), f + multiset{a})
  {
    forall b ensures Count(Ref(s.m.heap, a), b) == Held(s, b) + (f + multiset{a})[b] {
      assert Count(s.m.heap, b) == Held(s, b) + f[b];
    }
  }

  lemma DropRef(s: State, a: Addr, f: multiset<Addr>)
    requires Balanced(s, f) && a in f
    ensures Balanced(SetHeap(s, Unref(s.m.heap, a)), f - multiset{a})
  {
    assert Count(s.m.heap, a) == Held(s, a) + f[a];
    forall b ensures Count(Unref(s.m.heap, a), b) == Held(s, b) + (f - multiset{a})[b] {
      assert Count(s.m.heap, b) == Held(s, b) + f[b];
    }
  }

  lemma DropOption(s: State, a: Option<Addr>, f: multiset<Addr>)
    requires Balanced(s, f) && One(a) <= f
    ensures Balanced(SetHeap(s, UnrefOption(s.m.heap, a)), f - One(a))
  {
    if a.Some? {
      DropRef(s, a.value, f);
    }
  }

  lemma AllocRef(s: State, at: Addr, e: Entry, f: multiset<Addr>)
    requires Balanced(s, f) && at !in s.m.heap
    ensures Balanced(Alloc(s, at, e), f + multiset{at})
  {
    forall b ensures Count(Alloc(s, at, e).m.heap, b) == Held(s, b) + (f + multiset{at})[b] {
      assert Count(s.m.heap, b) == Held(s, b) + f[b];
    }
  }

  /** Installing an entry moves a floating reference into the slot and the slot's
      old reference into the RCU queue; counters do not matter. */
  lemma InstallRefs(s: State, m: Shared, entry: Option<Addr>, readers: set<nat>, f: multiset<Addr>)
    requires Balanced(s, f) && One(entry) <= f
    requires m.heap == s.m.heap && m.slot == entry
    requires m.pending == s.m.pending + (if s.m.slot.Some? then [Deferred(s.m.slot.value, readers)] else [])
    ensures Balanced(s.(m := m), f - One(entry))
  {
    forall a ensures Count(m.heap, a) == Held(s.(m := m), a) + (f - One(entry))[a] {
      assert Count(s.m.heap, a) == Held(s, a) + f[a];
      WaitingAppend(s.m.pending, if s.m.slot.Some? then [Deferred(s.m.slot.value, readers)] else [], a);
    }
  }

  /** Fields that hold no reference can change freely. */
  lemma SameRefs(s: State, s': State, f: multiset<Addr>)
    requires Balanced(s, f)
    requires s'.m.heap == s.m.heap && s'.m.slot == s.m.slot && s'.m.pending == s.m.pending
    requires s'.threads == s.threads
    ensures Balanced(s', f)
  {
    forall a ensures Count(s'.m.heap, a) == Held(s', a) + f[a] {
      assert Held(s', a) == Held(s, a);
      assert Count(s.m.heap, a) == Held(s, a) + f[a];
    }
  }

  lemma InHeap(s: State, f: multiset<Addr>, a: Addr)
    requires Balanced(s, f)
    requires Held(s, a) + f[a] > 0
    ensures a in s.m.heap
  {
    assert Count(s.m.heap, a) == Held(s, a) + f[a];
  }

  // ----- the composite sections -----

  lemma BeginReadRefs(s: State, t: nat)
    requires At(s, t) && Balanced(s, multiset{}) && s.threads[t].pc.Idle?
    ensures Balanced(BeginRead(s, t), multiset{})
  {
    hide Balanced;
    var s1 := s;
    if s.m.slot.Some? {
      InHeap(s, multiset{}, s.m.slot.value);
      AddRef(s, s.m.slot.value, multiset{});
      s1 := SetHeap(s, Ref(s.m.heap, s.m.slot.value));
    }
    var r := BeginRead(s, t);
    SwapThread(s1, t, r.threads[t], One(s.m.slot), multiset{});
    SameRefs(s1.(threads := r.threads), r, multiset{});
  }

  lemma AfterPopulateRefs(s: State, t: nat, a: Addr, synthesizes: bool)
    requires At(s, t) && Balanced(s, multiset{}) && s.threads[t].pc.Idle?
    ensures Balanced(AfterPopulate(s, t, a, synthesizes), multiset{})
  {
    hide Balanced;
    var r := AfterPopulate(s, t, a, synthesizes);
    if a !in s.m.heap {
      SwapThread(s, t, r.threads[t], multiset{}, multiset{});
    } else {
      AddRef(s, a, multiset{});
      var s1 := SetHeap(s, Ref(s.m.heap, a));
      assert PinsOf(r.threads[t].pc) == multiset{a};
      SwapThread(s1, t, r.threads[t], multiset{a}, multiset{});
      SameRefs(s1.(threads := r.threads), r, multiset{});
    }
  }

  lemma LockedRefs(s: State, t: nat, synthesizes: bool)
    requires At(s, t) && Balanced(s, multiset{}) && s.threads[t].pc.Idle?
    ensures Balanced(Locked(s, t, synthesizes), multiset{})
  {
    hide Balanced;
    if Hit(s) {
      AfterPopulateRefs(s, t, s.m.slot.value, synthesizes);
    } else {
      BeginReadRefs(s, t);
    }
  }

  lemma Cancel(f: multiset<Addr>, x: multiset<Addr>, y: multiset<Addr>)
    ensures f + x + y - x == f + y && f + y - y == f && x <= f + x + y && y <= f + y
  {}

  lemma DropBothRefs(s: State, made: Option<Addr>, cache: Option<Addr>, f: multiset<Addr>)
    requires Balanced(s, f + One(made) + One(cache))
    ensures Balanced(DropBoth(s, made, cache), f)
  {
    hide Balanced;
    hide One;
    hide UnrefOption;
    Cancel(f, One(made), One(cache));
    DropOption(s, made, f + One(made) + One(cache));
    DropOption(SetHeap(s, UnrefOption(s.m.heap, made)), cache, f + One(cache));
  }

  lemma CloseWindowRefs(s: State, t: nat, w: Window, made: Option<Addr>)
    requires At(s, t) && Balanced(s, multiset{})
    requires PinsOf(s.threads[t].pc) == One(w.cache) + One(made)
    ensures Balanced(CloseWindow(s, t, w), One(w.cache) + One(made))
  {
    hide Balanced;
    SwapThread(s, t, CloseWindow(s, t, w).threads[t], multiset{}, One(w.cache) + One(made));
  }

  /** The half-finished section after a window was closed. */
  lemma DroppedRefs(s: State, t: nat, w: Window, made: Option<Addr>)
    requires At(s, t) && Balanced(s, multiset{})
    requires s.threads[t].pc == ReadBack(w, made) || s.threads[t].pc == SynthBack(w, made)
    ensures
      var r := DropBoth(CloseWindow(s, t, w), made, w.cache);
      At(r, t) && Balanced(r, multiset{}) && r.threads[t].pc.Idle?
  {
    hide Balanced;
    hide UnrefOption;
    CloseWindowRefs(s, t, w, made);
    assert multiset{} + One(made) + One(w.cache) == One(w.cache) + One(made);
    DropBothRefs(CloseWindow(s, t, w), made, w.cache, multiset{});
  }

  lemma PublishedRefs(s: State, t: nat, w: Window, made: Addr)
    requires At(s, t) && Balanced(s, multiset{}) && s.threads[t].pc == ReadBack(w, Some(made))
    ensures
      var r := DropBoth(PublishRead(CloseWindow(s, t, w), w, made), None, w.cache);
      At(r, t) && Balanced(r, multiset{}) && r.threads[t].pc.Idle?
  {
    hide Balanced;
    hide UnrefOption;
    hide Wrap;
    CloseWindowRefs(s, t, w, Some(made));
    var s1 := CloseWindow(s, t, w);
    var both := One(w.cache) + One(Some(made));
    var s2 := PublishRead(s1, w, made);
    InstallRefs(s1, s2.m, Some(made), Readers(s1.threads), both);
    assert both - One(Some(made)) == multiset{} + One(None) + One(w.cache);
    DropBothRefs(s2, None, w.cache, multiset{});
  }

  lemma FinishReadRefs(s: State, t: nat, w: Window, made: Option<Addr>, synthesizes: bool)
    requires At(s, t) && Balanced(s, multiset{}) && s.threads[t].pc == ReadBack(w, made)
    ensures Balanced(FinishRead(s, t, w, made, synthesizes), multiset{})
  {
    hide Balanced;
    hide CloseWindow;
    hide DropBoth;
    hide PublishRead;
    hide Locked;
    hide AfterPopulate;
    hide ReadOutdated;
    DroppedRefs(s, t, w, made);
    var s1 := CloseWindow(s, t, w);
    if ReadOutdated(s, w) {
      LockedRefs(DropBoth(s1, made, w.cache), t, synthesizes);
    } else if made.Some? {
      if ReusePublished(s, w) {
        AfterPopulateRefs(DropBoth(s1, made, w.cache), t, s.m.slot.value, synthesizes);
      } else {
        PublishedRefs(s, t, w, made.value);
        AfterPopulateRefs(DropBoth(PublishRead(s1, w, made.value), None, w.cache), t, made.value, synthesizes);
      }
    }
  }

  lemma FinishSynthesisRefs(s: State, t: nat, w: Window, made: Option<Addr>, synthesizes: bool)
    requires At(s, t) && Balanced(s, multiset{}) && s.threads[t].pc == SynthBack(w, made)
    ensures Balanced(FinishSynthesis(s, t, w, made, synthesizes), multiset{})
  {
    hide Balanced;
    hide Locked;
    hide SynthOutdated;
    hide Replace;
    DroppedRefs(s, t, w, made);
    var s1 := CloseWindow(s, t, w);
    if SynthOutdated(s, w, made) {
      LockedRefs(DropBoth(s1, made, w.cache), t, synthesizes);
    } else if made.Some? {
      CloseWindowRefs(s, t, w, made);
      assert One(w.cache) + One(made) == One(made) + One(None) + One(w.cache);
      DropBothRefs(s1, None, w.cache, One(made));
      InstallAndHoldRefs(DropBoth(s1, None, w.cache), t, made.value);
    }
  }

  lemma InstallAndHoldRefs(s: State, t: nat, a: Addr)
    requires At(s, t) && Balanced(s, One(Some(a))) && s.threads[t].pc.Idle?
    ensures
      var s1 := s.(m := Replace(s.m, Some(a), Readers(s.threads)));
      && a in s1.m.heap
      && Balanced(SetPc(SetHeap(s1, Ref(s1.m.heap, a)), t, Holding(a, s1.m.heap[a].entry)), multiset{})
  {
    hide Balanced;
    ReplaceRefs(s, Some(a), One(Some(a)));
    var s1 := s.(m := Replace(s.m, Some(a), Readers(s.threads)));
    assert One(Some(a)) - One(Some(a)) == multiset{};
    assert One(s1.m.slot)[a] == 1;
    InHeap(s1, multiset{}, a);
    AddRef(s1, a, multiset{});
    var s2 := SetHeap(s1, Ref(s1.m.heap, a));
    SwapThread(s2, t, s2.threads[t].(pc := Holding(a, s1.m.heap[a].entry)), multiset{} + multiset{a}, multiset{});
  }

  // ----- every action -----

  lemma FastRefs(s: State, x: Action)
    requires Balanced(s, multiset{})
    requires x.Deref? || x.RcuPin? || x.DropProbe? || x.Release?
    ensures Balanced(Fast(s, x), multiset{})
  {
    hide Balanced;
    if At(s, x.t) {
      var r := Fast(s, x);
      var pc := s.threads[x.t].pc;
      match x {
        case Deref(t, _) =>
          if r != s {
            SwapThread(s, t, r.threads[t], multiset{}, multiset{});
          }
        case RcuPin(t) =>
          if pc.InRcu? {
            var s1 := s.(m := s.m.(pending := LeaveRcu(s.m.pending, t)));
            LeaveRcuRefs(s, t);
            if pc.a in s.m.heap {
              AddRef(s1, pc.a, multiset{});
              SwapThread(SetHeap(s1, Ref(s.m.heap, pc.a)), t, r.threads[t], multiset{pc.a}, multiset{});
            } else {
              SwapThread(s1, t, r.threads[t], multiset{}, multiset{});
            }
          }
        case DropProbe(t) => if pc.Probed? { ReleaseRefs(s, t, pc.a); }
        case Release(t) => if pc.Holding? { ReleaseRefs(s, t, pc.a); }
      }
    }
  }

  lemma LeaveRcuRefs(s: State, t: nat)
    requires Balanced(s, multiset{})
    ensures Balanced(s.(m := s.m.(pending := LeaveRcu(s.m.pending, t))), multiset{})
  {
    var s1 := s.(m := s.m.(pending := LeaveRcu(s.m.pending, t)));
    forall a ensures Count(s1.m.heap, a) == Held(s1, a) + multiset{}[a] {
      WaitingLeave(s.m.pending, t, a);
      assert Count(s.m.heap, a) == Held(s, a) + multiset{}[a];
    }
  }

  lemma ReleaseRefs(s: State, t: nat, a: Addr)
    requires At(s, t) && Balanced(s, multiset{}) && PinsOf(s.threads[t].pc) == multiset{a}
    ensures Balanced(SetPc(SetHeap(s, Unref(s.m.heap, a)), t, Idle), multiset{})
  {
    var s1 := SetPc(s, t, Idle);
    SwapThread(s, t, s1.threads[t], multiset{}, multiset{a});
    DropRef(s1, a, multiset{a});
    assert SetHeap(s1, Unref(s1.m.heap, a)) == SetPc(SetHeap(s, Unref(s.m.heap, a)), t, Idle);
  }

  lemma AllocPinRefs(s: State, t: nat, at: Addr, e: Entry, pc: Pc)
    requires At(s, t) && Balanced(s, multiset{}) && at !in s.m.heap
    requires PinsOf(pc) == PinsOf(s.threads[t].pc) + multiset{at}
    ensures Balanced(SetPc(Alloc(s, at, e), t, pc), multiset{})
  {
    AllocRef(s, at, e, multiset{});
    SwapThread(Alloc(s, at, e), t, s.threads[t].(pc := pc), multiset{} + multiset{at}, multiset{});
  }

  lemma LookupRefs(s: State, x: Action)
    requires Balanced(s, multiset{})
    requires x.Call? || x.ReadDone? || x.Relock? || x.SynthSnapshot? || x.SynthDone? || x.SynthRelock?
    ensures Balanced(Lookup(s, x), multiset{})
  {
    hide Balanced;
    hide FinishRead;
    hide FinishSynthesis;
    hide Locked;
    if At(s, x.t) {
      var pc := s.threads[x.t].pc;
      match x {
        case Call(t, synthesizes) =>
          if pc.Idle? {
            var s0 := s.(threads := s.threads[t := Thread(Idle, 0, 0, 0)]);
            SwapThread(s, t, s0.threads[t], multiset{}, multiset{});
            var s1 := s0.(calls := s.calls + 1);
            SameRefs(s0, s1, multiset{});
            LockedRefs(s1, t, synthesizes);
          }
        case ReadDone(t, outcome, at) =>
          if pc.Reading? && at !in s.m.heap {
            var e := ReadEntry(s.m, pc.w, outcome);
            if e.None? {
              SwapThread(s, t, s.threads[t].(pc := ReadBack(pc.w, None)), multiset{}, multiset{});
            } else {
              AllocPinRefs(s, t, at, e.value, ReadBack(pc.w, Some(at)));
            }
          }
        case Relock(t, synthesizes) =>
          if pc.ReadBack? { FinishReadRefs(s, t, pc.w, pc.made, synthesizes); }
        case SynthSnapshot(t) =>
          if pc.Synthesizing? && pc.tag.None? {
            var th := s.threads[t].(pc := Synthesizing(pc.w, Some(s.m.generation)));
            SwapThread(s, t, th, multiset{}, multiset{});
          }
        case SynthDone(t, outcome, at) =>
          if pc.Synthesizing? && at !in s.m.heap {
            var e := SynthEntry(pc.w, pc.tag, outcome);
            if e.None? {
              SwapThread(s, t, s.threads[t].(pc := SynthBack(pc.w, None)), multiset{}, multiset{});
            } else {
              AllocPinRefs(s, t, at, e.value, SynthBack(pc.w, Some(at)));
            }
          }
        case SynthRelock(t, synthesizes) =>
          if pc.SynthBack? { FinishSynthesisRefs(s, t, pc.w, pc.made, synthesizes); }
      }
    }
  }

  lemma ReplaceRefs(s: State, entry: Option<Addr>, f: multiset<Addr>)
    requires Balanced(s, f) && One(entry) <= f
    ensures Balanced(s.(m := Replace(s.m, entry, Readers(s.threads))), f - One(entry))
  {
    InstallRefs(s, Replace(s.m, entry, Readers(s.threads)), entry, Readers(s.threads), f);
  }

  lemma HookRefs(s: State, entry: Option<Addr>)
    requires Balanced(s, One(entry))
    ensures Balanced(Hook(s, entry), multiset{})
  {
    ReplaceRefs(s, entry, One(entry));
    assert One(entry) - One(entry) == multiset{};
    SameRefs(s.(m := Replace(s.m, entry, Readers(s.threads))), Hook(s, entry), multiset{});
  }

  lemma PersistRefs(s: State, x: Action)
    requires Balanced(s, multiset{})
    requires x.Claim? || x.QueuePersist? || x.PersistStart? || x.PersistWritten? || x.Promote?
    ensures Balanced(Persist(s, x), multiset{})
  {
    hide Balanced;
    hide Hook;
    if At(s, x.t) {
      var pc := s.threads[x.t].pc;
      if x.PersistWritten? {
        PersistWrittenRefs(s, x.t, x.ok, x.at);
      } else if x.Promote? {
        if pc.Promoting? {
          if PendingEntry(s.m, pc.bytes) {
            PromoteRefs(s, x.t, pc.a);
          } else {
            ReleaseRefs(s, x.t, pc.a);
          }
        }
      } else {
        QueueRefs(s, x);
      }
    }
  }

  lemma QueueRefs(s: State, x: Action)
    requires x.Claim? || x.QueuePersist? || x.PersistStart?
    requires At(s, x.t) && Balanced(s, multiset{})
    ensures Balanced(Persist(s, x), multiset{})
  {
    hide Balanced;
    hide Hook;
    var t, pc := x.t, s.threads[x.t].pc;
    match x {
      case Claim(_) =>
        if pc.Holding? { QueuePcRefs(s, t, Claimed(pc.a, pc.e), s.m.(persistQueued := true)); }
      case QueuePersist(_, accepted) =>
        if pc.Claimed? {
          QueuePcRefs(s, t, Holding(pc.a, pc.e), s.m.(works := s.m.works + multiset{t}));
          QueuePcRefs(s, t, Holding(pc.a, pc.e), s.m.(persistQueued := false));
        }
      case PersistStart(_) =>
        if pc.Idle? && t in s.m.works {
          var m := s.m.(works := s.m.works - multiset{t}, persistQueued := false);
          SameRefs(s, s.(m := m), multiset{});
          if Persistable(s.m) {
            QueuePcRefs(s, t, PersistWriting(s.m.heap[s.m.slot.value].entry.bytes), m);
          }
        }
    }
  }

  lemma QueuePcRefs(s: State, t: nat, pc: Pc, m: Shared)
    requires At(s, t) && Balanced(s, multiset{}) && PinsOf(pc) == PinsOf(s.threads[t].pc)
    requires m.heap == s.m.heap && m.slot == s.m.slot && m.pending == s.m.pending
    ensures Balanced(SetPc(s.(m := m), t, pc), multiset{})
  {
    hide Balanced;
    SameRefs(s, s.(m := m), multiset{});
    SwapThread(s.(m := m), t, s.threads[t].(pc := pc), multiset{}, multiset{});
  }

  lemma PersistWrittenRefs(s: State, t: nat, ok: bool, at: Addr)
    requires At(s, t) && Balanced(s, multiset{})
    ensures Balanced(Persist(s, PersistWritten(t, ok, at)), multiset{})
  {
    hide Balanced;
    var pc := s.threads[t].pc;
    if pc.PersistWriting? && at !in s.m.heap {
      if ok {
        HookRefs(s, None);
        AllocPinRefs(Hook(s, None), t, at, Entry(Valid, FromXattr, pc.bytes, 0, Written, 0), Promoting(at, pc.bytes));
      } else {
        QueuePcRefs(s, t, Idle, s.m);
      }
    }
  }

  lemma PromoteRefs(s: State, t: nat, a: Addr)
    requires At(s, t) && Balanced(s, multiset{}) && PinsOf(s.threads[t].pc) == multiset{a}
    ensures
      var s1 := SetPc(s, t, Idle);
      Balanced(s1.(m := Replace(s1.m, Some(a), Readers(s1.threads))), multiset{})
  {
    hide Balanced;
    var s1 := SetPc(s, t, Idle);
    SwapThread(s, t, s1.threads[t], multiset{}, multiset{a});
    ReplaceRefs(s1, Some(a), multiset{a});
    assert multiset{a} - One(Some(a)) == multiset{};
  }

  lemma OutsideRefs(s: State, x: Action)
    requires Balanced(s, multiset{})
    requires x.SetSecurity? || x.PostSetxattr? || x.Invalidate? || x.BumpGeneration? || x.GracePeriod?
    ensures Balanced(Outside(s, x), multiset{})
  {
    match x {
      case SetSecurity(bytes, at) =>
        if at !in s.m.heap {
          var e := Entry(Valid, FromXattr, bytes, 0, Written, 0);
          AllocRef(s, at, e, multiset{});
          assert multiset{} + multiset{at} == One(Some(at));
          HookRefs(Alloc(s, at, e), Some(at));
        }
      case PostSetxattr | Invalidate => HookRefs(s, None);
      case BumpGeneration => SameRefs(s, Outside(s, x), multiset{});
      case GracePeriod(k) =>
        if k < |s.m.pending| && s.m.pending[k].readers == {} {
          var a := s.m.pending[k].entry;
          var s1 := s.(m := s.m.(pending := s.m.pending[..k] + s.m.pending[k + 1..]));
          forall b ensures Count(s1.m.heap, b) == Held(s1, b) + multiset{a}[b] {
            WaitingRemove(s.m.pending, k, b);
            assert Count(s.m.heap, b) == Held(s, b) + multiset{}[b];
          }
          DropRef(s1, a, multiset{a});
          assert multiset{a} - multiset{a} == multiset{};
          SameRefs(SetHeap(s1, Unref(s1.m.heap, a)), Outside(s, x), multiset{});
        }
    }
  }

  lemma ActRefs(s: State, x: Action)
    requires Balanced(s, multiset{})
    ensures Balanced(Act(s, x), multiset{})
  {
    hide Balanced;
    match x
    case Deref(_, _) | RcuPin(_) | DropProbe(_) | Release(_) => FastRefs(s, x);
    case Call(_, _) | ReadDone(_, _, _) | Relock(_, _) | SynthSnapshot(_) | SynthDone(_, _, _) | SynthRelock(_, _) =>
      LookupRefs(s, x);
    case Claim(_) | QueuePersist(_, _) | PersistStart(_) | PersistWritten(_, _, _) | Promote(_) => PersistRefs(s, x);
    case SetSecurity(_, _) | PostSetxattr | Invalidate | BumpGeneration | GracePeriod(_) => OutsideRefs(s, x);
  }

  lemma TickRefs(s: State)
    requires Balanced(s, multiset{})
    ensures Balanced(Tick(s), multiset{})
  {
    SameRefs(s, Tick(s), multiset{});
  }

  lemma InitRefs(reread: bool, n: nat)
    ensures Balanced(Init(reread, n), multiset{})
  {
    forall a ensures Held(Init(reread, n), a) == 0 {
      IdlePins(Init(reread, n).threads, a);
    }
  }

  lemma {:induction false} IdlePins(threads: seq<Thread>, a: Addr)
    requires forall i :: 0 <= i < |threads| ==> threads[i].pc.Idle?
    ensures Pins(threads, a) == 0
  {
    if threads != [] {
      IdlePins(threads[1..], a);
    }
  }

  /** Conservation over every schedule: what an entry's count says is what the
      slot, the threads and the RCU queue hold, and a live entry is held by one
      of them at least. */
  lemma {:induction false} ReferencesConserved(reread: bool, n: nat, xs: seq<Action>)
    ensures Balanced(Execute(Init(reread, n), xs), multiset{})
  {
    hide Balanced;
    if xs == [] {
      InitRefs(reread, n);
    } else {
      ReferencesConserved(reread, n, xs[..|xs| - 1]);
      var s := Execute(Init(reread, n), xs[..|xs| - 1]);
      ActRefs(s, xs[|xs| - 1]);
      TickRefs(Act(s, xs[|xs| - 1]));
    }
  }
}
