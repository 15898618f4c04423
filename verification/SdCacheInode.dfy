/** The inode security object of `file_sd_cache.c`, whose fields the kernel updates
    in place, proved against the critical sections of the interleaving model:
    in particular the whole retry loop of a lookup, with other threads running
    while it reads, is one schedule of that model. */
module SdCacheInode {
  import opened Widths
  import opened SdCacheMachine
  import opened SdCacheReferences
  import opened SdCacheLifetimes
  import opened SdCacheSteps

  /** What happens while a lookup has dropped the mutex: other threads' actions,
      and the outcome of its own xattr read. */
  datatype Interval = Interval(others: seq<Action>, outcome: ReadOutcome)

  predicate ByOthers(t: nat, xs: seq<Action>) {
    forall i :: 0 <= i < |xs| ==> ByOther(t, xs[i])
  }

  predicate ByOther(t: nat, x: Action) {
    x.SetSecurity? || x.PostSetxattr? || x.Invalidate? || x.BumpGeneration? || x.GracePeriod? || x.t != t
  }

  /** The schedule of one lookup by `t` through the given intervals; `ats` are the
      addresses its entries were allocated at. */
  function Schedule(t: nat, synthesizes: bool, world: seq<Interval>, ats: seq<Addr>): seq<Action>
    requires |ats| == |world|
  {
    if world == [] then [Call(t, synthesizes)]
    else
      var k := |world| - 1;
      Schedule(t, synthesizes, world[..k], ats[..k]) + Round(t, synthesizes, world[k], ats[k])
  }

  function Round(t: nat, synthesizes: bool, pause: Interval, at: Addr): seq<Action> {
    pause.others + [ReadDone(t, pause.outcome, at), Relock(t, synthesizes)]
  }

  /** Other threads' actions keep every reference alive and leave `t` alone. */
  lemma {:induction false} OthersRun(s: State, xs: seq<Action>, t: nat)
    requires Alive(s) && At(s, t) && ByOthers(t, xs)
    ensures Alive(Execute(s, xs)) && At(Execute(s, xs), t) && Execute(s, xs).threads[t] == s.threads[t]
    ensures Execute(s, xs).reread == s.reread
  {
    hide Balanced;
    hide Step;
    if xs != [] {
      var ys, x := xs[..|xs| - 1], xs[|xs| - 1];
      OthersRun(s, ys, t);
      var r := Execute(s, ys);
      assert ByOther(t, x);
      StepAlive(r, x);
      RereadStays(r, x);
      if x.SetSecurity? || x.PostSetxattr? || x.Invalidate? || x.BumpGeneration? || x.GracePeriod? {
        OutsideMovesNobody(r, x);
      } else if At(r, x.t) {
        OthersDoNotMove(r, x, t);
      } else {
        AbsentThread(r, x);
      }
    }
  }

  lemma AbsentThread(s: State, x: Action)
    requires !(x.SetSecurity? || x.PostSetxattr? || x.Invalidate? || x.BumpGeneration? || x.GracePeriod?)
    requires !At(s, x.t)
    ensures Step(s, x).threads == s.threads
  {
    NobodyActs(s, x);
  }

  /** One more interval of the schedule, action by action. */
  lemma RoundRuns(s: State, t: nat, synthesizes: bool, world: seq<Interval>, ats: seq<Addr>)
    requires |ats| == |world| > 0
    ensures
      var k := |world| - 1;
      var before := Execute(s, Schedule(t, synthesizes, world[..k], ats[..k]));
      Execute(s, Schedule(t, synthesizes, world, ats)) ==
      Step(Step(Execute(before, world[k].others), ReadDone(t, world[k].outcome, ats[k])), Relock(t, synthesizes))
  {
    hide Step;
    var k := |world| - 1;
    var first := Schedule(t, synthesizes, world[..k], ats[..k]);
    var done, relock := ReadDone(t, world[k].outcome, ats[k]), Relock(t, synthesizes);
    ExecuteAppend(s, first, Round(t, synthesizes, world[k], ats[k]));
    ExecuteAppend(Execute(s, first), world[k].others, [done, relock]);
    var mid := Execute(Execute(s, first), world[k].others);
    var both := [done, relock];
    assert both[..|both| - 1] == [done];
    var one := [done];
    assert one[..|one| - 1] == [];
    assert Execute(mid, one) == Step(mid, done);
    assert Execute(mid, both) == Step(Execute(mid, one), relock);
  }

  class InodeSecurity {
    const reread: bool
    var slot: Option<Addr>
    var epoch: nat
    var invalidation: nat
    var readTicket: nat
    var publishedTicket: nat
    var persistQueued: bool
    var generation: nat
    var heap: Heap
    var pending: seq<Deferred>
    var works: multiset<nat>
    var past: History
    var threads: seq<Thread>
    var calls: nat
    var readCount: nat

    function View(): State
      reads this
    {
      State(reread,
            Shared(slot, epoch, invalidation, readTicket, publishedTicket, persistQueued, generation, heap, pending,
                   works, past),
            threads, calls, readCount)
    }

    constructor (stacked: bool, n: nat)
      ensures View() == Init(stacked, n)
    {
      reread := stacked;
      slot, epoch, invalidation, readTicket, publishedTicket := None, 0, 0, 0, 0;
      persistQueued, generation, heap, pending, works := false, 0, map[], [], multiset{};
      past := History(1, 0, 0, 0, 0, 0, 0, 0, 0, []);
      threads, calls, readCount := seq(n, i => Thread(Idle, 0, 0, 0)), 0, 0;
    }

    /** Drops one reference, if there is one to drop. */
    method Put(a: Option<Addr>)
      modifies this`heap
      ensures View() == SetHeap(old(View()), UnrefOption(old(heap), a))
    {
      if a.Some? && a.value in heap {
        var refs := heap[a.value].refs;
        if refs <= 1 {
          heap := heap - {a.value};
        } else {
          heap := heap[a.value := heap[a.value].(refs := refs - 1)];
        }
      }
    }

    method CallRcu(gone: Option<Addr>)
      modifies this`pending
      ensures View() == old(View()).(m := Defer(old(View()).m, gone, Readers(threads)))
    {
      if gone.Some? {
        pending := pending + [Deferred(gone.value, Readers(threads))];
      }
    }

    /** An explicit replacement of the slot. */
    method ReplaceLocked(entry: Option<Addr>)
      modifies this
      ensures View() == old(View()).(m := Replace(old(View()).m, entry, Readers(old(threads))))
    {
      var gone := slot;
      past := past.(epochs := past.epochs + 1, invalidations := past.invalidations + 1,
                    published := past.tickets, lastReplace := past.clock);
      epoch := (epoch + 1) % U64;
      invalidation := (invalidation + 1) % U64;
      publishedTicket := readTicket;
      slot := entry;
      CallRcu(gone);
    }

    /** Publishes `entry` if the slot still shows `expected`. */
    method TryPublish(expected: Option<Addr>, entry: Addr) returns (ok: bool)
      modifies this
      ensures ok <==> old(slot) == expected
      ensures View() == if ok then old(View()).(m := Publish(old(View()).m, entry)) else old(View())
    {
      if slot != expected {
        return false;
      }
      slot := Some(entry);
      epoch := (epoch + 1) % U64;
      past := past.(epochs := past.epochs + 1);
      return true;
    }

    /** The descriptor hook after an xattr write: the slot is emptied. */
    method PostSetxattr()
      modifies this
      ensures View() == Hook(old(View()), None)
    {
      ReplaceLocked(None);
      past := past.(lastHook := past.clock);
    }

    /** Pins the slot's entry, copies the counters and takes a ticket. */
    method StartRead(t: nat)
      requires At(View(), t)
      modifies this
      ensures View() == BeginRead(old(View()), t)
    {
      if slot.Some? && slot.value in heap {
        heap := heap[slot.value := heap[slot.value].(refs := heap[slot.value].refs + 1)];
      }
      if reread {
        readTicket := (readTicket + 1) % U64;
        past := past.(tickets := past.tickets + 1, starts := past.starts + [past.clock]);
      }
      var w := Snapshot(View(), slot, readTicket, past.tickets, Read(past.clock));
      readCount := readCount + 1;
      threads := threads[t := threads[t].(pc := Reading(w), readCount := threads[t].readCount + 1)];
    }

    /** What the caller of a lookup does with the entry in `a`. */
    method Take(t: nat, a: Addr, synthesizes: bool)
      requires At(View(), t)
      modifies this
      ensures View() == AfterPopulate(old(View()), t, a, synthesizes)
      ensures |threads| == old(|threads|) && !threads[t].pc.Reading? && !threads[t].pc.ReadBack?
    {
      if a !in heap {
        threads := threads[t := threads[t].(pc := Idle)];
        return;
      }
      var e := heap[a].entry;
      heap := heap[a := heap[a].(refs := heap[a].refs + 1)];
      if e.state.Missing? && synthesizes && !reread {
        var w := Snapshot(View(), Some(a), 0, 0, e.origin);
        threads := threads[t := threads[t].(pc := Synthesizing(w, None), synths := threads[t].synths + 1)];
      } else {
        threads := threads[t := threads[t].(pc := Holding(a, e))];
      }
    }

    /** The mutex is taken again: the window is over, its interference counted. */
    method LeaveWindow(t: nat, w: Window)
      requires At(View(), t)
      modifies this`threads
      ensures View() == CloseWindow(old(View()), t, w)
      ensures |threads| == old(|threads|) && threads[t].pc.Idle?
    {
      var now := Interference(reread, View().m);
      var more := if now >= w.interference then now - w.interference else 0;
      threads := threads[t := threads[t].(pc := Idle, seen := threads[t].seen + more)];
    }

    /** A free address. */
    method Allocate() returns (at: Addr)
      ensures at !in heap
    {
      at := 0;
      var left := heap.Keys;
      while at in heap
        invariant forall j :: j in heap && j >= at ==> j in left
        decreases left
      {
        left := left - {at};
        at := at + 1;
      }
    }

    /** The xattr read is over: its result becomes a new entry, or an error. */
    method ReadXattr(t: nat, outcome: ReadOutcome) returns (at: Addr)
      requires At(View(), t) && threads[t].pc.Reading?
      modifies this
      ensures at !in old(heap)
      ensures View() == Step(old(View()), ReadDone(t, outcome, at))
      ensures outcome.ReadFailed? <==> at !in heap
      ensures outcome.NoDescriptor? ==> heap[at].entry.state.Missing? && heap[at].entry.generation == generation
      ensures outcome.BadDescriptor? ==> heap[at].entry.state.Corrupt?
      ensures outcome.Stored? ==> heap[at].entry.state.Valid? && heap[at].entry.bytes == outcome.bytes
    {
      var w := threads[t].pc.w;
      at := Allocate();
      var made: Option<Addr> := None;
      var e := ReadEntry(View().m, w, outcome);
      if e.Some? {
        heap := heap[at := Cell(e.value, 1)];
        made := Some(at);
      }
      threads := threads[t := threads[t].(pc := ReadBack(w, made))];
      past := past.(clock := past.clock + 1);
    }

    /** Publishes a read over what the slot shows, with its ticket on StrataFS. */
    method PublishLocked(w: Window, made: Addr)
      modifies this
      ensures View() == PublishRead(old(View()), w, made) && threads == old(threads)
    {
      hide Wrap;
      var displaced := slot;
      var ok := TryPublish(displaced, made);
      if reread {
        publishedTicket := w.ticket;
        past := past.(published := w.tickets);
      }
      CallRcu(displaced);
    }

    /** The section after the mutex is taken again, up to the jump back. */
    method FinishReadLocked(t: nat, synthesizes: bool) returns (retry: bool)
      requires At(View(), t) && threads[t].pc.ReadBack?
      modifies this
      ensures |threads| == old(|threads|)
      ensures
        var w, made := old(threads[t].pc.w), old(threads[t].pc.made);
        && (retry <==> ReadOutdated(old(View()), w))
        && (retry ==> View() == DropBoth(CloseWindow(old(View()), t, w), made, w.cache))
        && (!retry ==> View() == FinishRead(old(View()), t, w, made, synthesizes))
      ensures retry ==> threads[t].pc.Idle?
      ensures !retry ==> !threads[t].pc.Reading? && !threads[t].pc.ReadBack?
    {
      hide AfterPopulate;
      hide Locked;
      hide CloseWindow;
      hide Defer;
      hide PublishRead;
      hide Unref;
      hide SignedDiff;
      var w, made, published := threads[t].pc.w, threads[t].pc.made, slot;
      retry := (if reread then w.invalidation != invalidation
                else published != w.cache || w.epoch != epoch) || w.generation != generation;
      LeaveWindow(t, w);
      if retry {
        Put(made);
        Put(w.cache);
      } else if made.None? {
        Put(w.cache);
      } else if reread && published.Some? && published != w.cache && SignedDiff(publishedTicket, w.ticket) > 0 {
        Put(made);
        Put(w.cache);
        Take(t, published.value, synthesizes);
      } else {
        PublishLocked(w, made.value);
        Put(w.cache);
        Take(t, made.value, synthesizes);
      }
    }

    /** The section in which a synthesizing thread returns: install, fail or retry. */
    method FinishSynthesisLocked(t: nat, synthesizes: bool) returns (retry: bool)
      requires At(View(), t) && threads[t].pc.SynthBack?
      modifies this
      ensures |threads| == old(|threads|)
      ensures
        var w, made := old(threads[t].pc.w), old(threads[t].pc.made);
        && (retry <==> SynthOutdated(old(View()), w, made))
        && (retry ==> View() == DropBoth(CloseWindow(old(View()), t, w), made, w.cache))
        && (!retry ==> View() == FinishSynthesis(old(View()), t, w, made, synthesizes))
    {
      hide Locked;
      hide CloseWindow;
      hide Replace;
      hide Unref;
      hide Current;
      var w, made := threads[t].pc.w, threads[t].pc.made;
      var m := View().m;
      retry := slot != w.cache || w.epoch != epoch
               || (w.cache.Some? && w.cache.value in heap && !Current(m, heap[w.cache.value].entry))
               || (made.Some? && made.value in heap && !Current(m, heap[made.value].entry));
      LeaveWindow(t, w);
      if retry {
        Put(made);
        Put(w.cache);
        return;
      }
      Put(w.cache);
      if made.Some? {
        ReplaceLocked(made);
        Hold(t, made.value);
      }
    }

    /** Pins an entry for the caller that is about to return it. */
    method Hold(t: nat, a: Addr)
      requires At(View(), t)
      modifies this
      ensures |threads| == old(|threads|)
      ensures
        var s := old(View());
        View() == if a !in s.m.heap then s
                  else SetPc(SetHeap(s, Ref(s.m.heap, a)), t, Holding(a, s.m.heap[a].entry))
    {
      if a in heap {
        var e := heap[a].entry;
        heap := heap[a := heap[a].(refs := heap[a].refs + 1)];
        threads := threads[t := threads[t].(pc := Holding(a, e))];
      }
    }

    /** The write-back worker takes its claim and copies the bytes to write. */
    method StartPersist(t: nat)
      requires At(View(), t) && threads[t].pc.Idle? && t in works
      modifies this
      ensures View() == Persist(old(View()), PersistStart(t))
    {
      works := works - multiset{t};
      persistQueued := false;
      if slot.Some? && slot.value in heap {
        var e := heap[slot.value].entry;
        if e.state.Valid? && e.source.SyntheticPending? && e.bytes != [] && e.generation == generation {
          threads := threads[t := threads[t].(pc := PersistWriting(e.bytes))];
        }
      }
    }

    /** The worker re-labels the slot's entry if that is still the one it wrote. */
    method PromotePersisted(t: nat)
      requires At(View(), t) && threads[t].pc.Promoting?
      modifies this
      ensures View() == Persist(old(View()), Promote(t))
    {
      hide Replace;
      var a, bytes := threads[t].pc.a, threads[t].pc.bytes;
      var matches := false;
      if slot.Some? && slot.value in heap {
        var e := heap[slot.value].entry;
        matches := e.state.Valid? && e.source.SyntheticPending? && e.bytes == bytes;
      }
      threads := threads[t := threads[t].(pc := Idle)];
      if matches {
        ReplaceLocked(Some(a));
      } else {
        Put(Some(a));
      }
    }

    /** One unlocked read and the section that follows it. */
    method Attempt(t: nat, synthesizes: bool, pause: Interval) returns (at: Addr, retry: bool)
      requires At(View(), t) && threads[t].pc.Reading? && Alive(View()) && ByOthers(t, pause.others)
      modifies this
      ensures
        var s := Execute(old(View()), pause.others);
        var r := Step(Step(s, ReadDone(t, pause.outcome, at)), Relock(t, synthesizes));
        && Alive(r) && At(View(), t)
        && (retry ==> threads[t].pc.Idle? && r == Tick(Locked(View(), t, synthesizes)))
        && (!retry ==> View() == r && !threads[t].pc.Reading? && !threads[t].pc.ReadBack?)
    {
      hide Balanced;
      hide Step;
      hide Locked;
      hide FinishRead;
      OthersRun(View(), pause.others, t);
      Interleave(pause.others);
      ghost var s1 := View();
      at := ReadXattr(t, pause.outcome);
      ghost var s2 := View();
      ReadIsBack(s1, t, pause.outcome, at);
      RelockFinishes(s2, t, synthesizes);
      StepAlive(s1, ReadDone(t, pause.outcome, at));
      StepAlive(s2, Relock(t, synthesizes));
      retry := FinishReadLocked(t, synthesizes);
      if !retry {
        past := past.(clock := past.clock + 1);
      }
    }

    /** The whole lookup loop: read unlocked, compare, start again when something
        interfered.  However other threads fill the intervals, the loop does
        exactly what the interleaving model does on that schedule, and it stops
        early only when the lookup is no longer reading. */
    method GetOrPopulate(t: nat, synthesizes: bool, world: seq<Interval>) returns (ats: seq<Addr>)
      requires At(View(), t) && threads[t].pc.Idle? && Alive(View())
      requires forall k :: 0 <= k < |world| ==> ByOthers(t, world[k].others)
      modifies this
      ensures |ats| <= |world| && At(View(), t)
      ensures View() == Execute(old(View()), Schedule(t, synthesizes, world[..|ats|], ats))
      ensures |ats| < |world| ==> !threads[t].pc.Reading? && !threads[t].pc.ReadBack?
    {
      hide Balanced;
      hide Step;
      hide BeginRead;
      hide AfterPopulate;
      hide Execute;
      hide Schedule;
      hide Locked;
      hide Alive;
      ghost var s0 := View();
      calls := calls + 1;
      threads := threads[t := Thread(Idle, 0, 0, 0)];
      ats := [];
      CallLocks(s0, t, synthesizes);
      assert View() == Enter(s0, t);
      while true
        invariant |ats| <= |world| && At(View(), t) && threads[t].pc.Idle?
        invariant Alive(Execute(s0, Schedule(t, synthesizes, world[..|ats|], ats)))
        invariant Execute(s0, Schedule(t, synthesizes, world[..|ats|], ats)) == Tick(Locked(View(), t, synthesizes))
        decreases |world| - |ats|
      {
        var hit := !reread && slot.Some? && slot.value in heap && Current(View().m, heap[slot.value].entry);
        LockedPc(View(), t, synthesizes);
        if hit {
          Take(t, slot.value, synthesizes);
        } else {
          StartRead(t);
        }
        past := past.(clock := past.clock + 1);
        if hit || |ats| == |world| {
          return;
        }
        var at, retry := Attempt(t, synthesizes, world[|ats|]);
        RoundRuns(s0, t, synthesizes, world[..|ats| + 1], ats + [at]);
        assert world[..|ats| + 1][..|ats|] == world[..|ats|] && (ats + [at])[..|ats|] == ats;
        ats := ats + [at];
        if !retry {
          return;
        }
      }
    }

    /** Everything other threads did while the mutex was free. */
    method Interleave(xs: seq<Action>)
      modifies this
      ensures View() == Execute(old(View()), xs)
    {
      for i := 0 to |xs|
        invariant View() == Execute(old(View()), xs[..i])
      {
        assert xs[..i + 1][..i] == xs[..i];
        RereadStays(View(), xs[i]);
        Load(Step(View(), xs[i]));
      }
      assert xs[..|xs|] == xs;
    }

    method Load(s: State)
      requires s.reread == reread
      modifies this
      ensures View() == s
    {
      slot, epoch, invalidation, readTicket := s.m.slot, s.m.epoch, s.m.invalidation, s.m.readTicket;
      publishedTicket, persistQueued, generation := s.m.publishedTicket, s.m.persistQueued, s.m.generation;
      heap, pending, works := s.m.heap, s.m.pending, s.m.works;
      past := s.m.past;
      threads, calls, readCount := s.threads, s.calls, s.readCount;
    }
  }

  lemma CallLocks(s: State, t: nat, synthesizes: bool)
    requires At(s, t) && s.threads[t].pc.Idle? && Alive(s)
    ensures Execute(s, Schedule(t, synthesizes, [], [])) == Tick(Locked(Enter(s, t), t, synthesizes))
    ensures Alive(Execute(s, Schedule(t, synthesizes, [], [])))
  {
    hide Balanced;
    assert [Call(t, synthesizes)][..0] == [];
    StepAlive(s, Call(t, synthesizes));
  }

  lemma LockedPc(s: State, t: nat, synthesizes: bool)
    requires At(s, t)
    ensures
      var r := Locked(s, t, synthesizes);
      && |r.threads| == |s.threads|
      && r == (if Hit(s) then AfterPopulate(s, t, s.m.slot.value, synthesizes) else BeginRead(s, t))
      && (if Hit(s) then !r.threads[t].pc.Reading? && !r.threads[t].pc.ReadBack? else r.threads[t].pc.Reading?)
  {}

  lemma ReadIsBack(s: State, t: nat, outcome: ReadOutcome, at: Addr)
    requires At(s, t) && s.threads[t].pc.Reading? && at !in s.m.heap
    ensures
      var r := Step(s, ReadDone(t, outcome, at));
      At(r, t) && r.threads[t].pc.ReadBack? && |r.threads| == |s.threads|
  {}

  lemma RelockFinishes(s: State, t: nat, synthesizes: bool)
    requires At(s, t) && s.threads[t].pc.ReadBack?
    ensures
      var w, made := s.threads[t].pc.w, s.threads[t].pc.made;
      && Step(s, Relock(t, synthesizes)) == Tick(FinishRead(s, t, w, made, synthesizes))
      && (ReadOutdated(s, w) ==>
            FinishRead(s, t, w, made, synthesizes) ==
            Locked(DropBoth(CloseWindow(s, t, w), made, w.cache), t, synthesizes))
  {}
}
