/** The deferred write-back of a synthesized descriptor: its claim bit, which covers
    queueing and not writing, has one owner; two write-backs overlap only when one was
    claimed while the other was writing; and promotion never changes what the cache
    says. */
module SdCachePersist {
  import opened Widths
  import opened SdCacheMachine
  import opened SdCacheReferences
  import opened SdCacheLifetimes
  import opened SdCacheSteps

  /** A thread that is queueing a write-back, or writing one. */
  predicate InPhase(pc: Pc, writing: bool) {
    if writing then pc.PersistWriting? else pc.Claimed?
  }

  function Bit(b: bool): nat {
    if b then 1 else 0
  }

  /** How many threads are queueing, or writing. */
  function Doing(threads: seq<Thread>, writing: bool): nat {
    if threads == [] then 0 else Bit(InPhase(threads[0].pc, writing)) + Doing(threads[1..], writing)
  }

  /** The claim bit is set exactly while one thread or one queued work owns it. */
  predicate ClaimOwned(s: State) {
    Doing(s.threads, false) + |s.m.works| == Bit(s.m.persistQueued)
  }

  lemma {:induction false} DoingUpdate(threads: seq<Thread>, t: nat, th: Thread, writing: bool)
    requires t < |threads|
    ensures Doing(threads[t := th], writing) + Bit(InPhase(threads[t].pc, writing)) ==
            Doing(threads, writing) + Bit(InPhase(th.pc, writing))
  {
    if t > 0 {
      assert threads[t := th][1..] == threads[1..][t - 1 := th];
      DoingUpdate(threads[1..], t - 1, th, writing);
    } else {
      assert threads[t := th][1..] == threads[1..];
    }
  }

  lemma {:induction false} NobodyDoes(threads: seq<Thread>, writing: bool)
    requires forall i :: 0 <= i < |threads| ==> threads[i].pc.Idle?
    ensures Doing(threads, writing) == 0
  {
    if threads != [] {
      NobodyDoes(threads[1..], writing);
    }
  }

  /** Neither claiming nor writing, before and after; and the claim is as it was. */
  predicate ClaimKept(s: State, r: State, t: nat) {
    && At(s, t) && At(r, t)
    && r.m.works == s.m.works && r.m.persistQueued == s.m.persistQueued
    && (r.threads[t].pc.Claimed? <==> s.threads[t].pc.Claimed?)
    && (r.threads[t].pc.PersistWriting? <==> s.threads[t].pc.PersistWriting?)
  }

  lemma LockedKeepsClaim(s: State, t: nat, synthesizes: bool)
    requires At(s, t) && !s.threads[t].pc.Claimed? && !s.threads[t].pc.PersistWriting?
    ensures ClaimKept(s, Locked(s, t, synthesizes), t)
  {}

  lemma AfterPopulateKeepsClaim(s: State, t: nat, a: Addr, synthesizes: bool)
    requires At(s, t) && !s.threads[t].pc.Claimed? && !s.threads[t].pc.PersistWriting?
    ensures ClaimKept(s, AfterPopulate(s, t, a, synthesizes), t)
  {}

  lemma RelockKeepsClaim(s: State, t: nat, w: Window, made: Option<Addr>, synthesizes: bool)
    requires At(s, t) && s.threads[t].pc == ReadBack(w, made)
    ensures ClaimKept(s, FinishRead(s, t, w, made, synthesizes), t)
  {
    hide Locked;
    hide AfterPopulate;
    hide Wrap;
    hide UnrefOption;
    hide SignedDiff;
    hide ReadOutdated;
    var s1 := CloseWindow(s, t, w);
    if ReadOutdated(s, w) {
      LockedKeepsClaim(DropBoth(s1, made, w.cache), t, synthesizes);
    } else if made.Some? {
      if ReusePublished(s, w) {
        AfterPopulateKeepsClaim(DropBoth(s1, made, w.cache), t, s.m.slot.value, synthesizes);
      } else {
        AfterPopulateKeepsClaim(DropBoth(PublishRead(s1, w, made.value), None, w.cache), t, made.value, synthesizes);
      }
    }
  }

  lemma SynthRelockKeepsClaim(s: State, t: nat, w: Window, made: Option<Addr>, synthesizes: bool)
    requires At(s, t) && s.threads[t].pc == SynthBack(w, made)
    ensures ClaimKept(s, FinishSynthesis(s, t, w, made, synthesizes), t)
  {
    hide Locked;
    hide Wrap;
    hide UnrefOption;
    hide SynthOutdated;
    LockedKeepsClaim(DropBoth(CloseWindow(s, t, w), made, w.cache), t, synthesizes);
  }

  lemma LookupKeepsClaim(s: State, x: Action)
    requires x.Call? || x.ReadDone? || x.Relock? || x.SynthSnapshot? || x.SynthDone? || x.SynthRelock?
    requires At(s, x.t)
    ensures ClaimKept(s, Lookup(s, x), x.t)
  {
    hide Locked;
    hide FinishRead;
    hide FinishSynthesis;
    var t, pc := x.t, s.threads[x.t].pc;
    if x.Call? && pc.Idle? {
      LockedKeepsClaim(Enter(s, t), t, x.synthesizes);
    } else if x.Relock? && pc.ReadBack? {
      RelockKeepsClaim(s, t, pc.w, pc.made, x.synthesizes);
    } else if x.SynthRelock? && pc.SynthBack? {
      SynthRelockKeepsClaim(s, t, pc.w, pc.made, x.synthesizes);
    }
  }

  lemma FastKeepsClaim(s: State, x: Action)
    requires x.Deref? || x.RcuPin? || x.DropProbe? || x.Release?
    requires At(s, x.t)
    ensures ClaimKept(s, Fast(s, x), x.t)
  {}

  lemma OnlyThreadMoves(s: State, r: State, t: nat)
    requires At(s, t) && Quiet(s, r, t)
    ensures r.threads == s.threads[t := r.threads[t]]
  {}

  /** How a step moves a claim: from nobody to the thread, on to its task work, into
      writing, and out again. */
  datatype ClaimMove = Stays | Takes | Queues | GivesUp | Starts | Skips | Writes

  predicate Moves(s: State, r: State, t: nat, move: ClaimMove) {
    && At(s, t) && At(r, t) && r.threads == s.threads[t := r.threads[t]]
    && var from, to := s.threads[t].pc, r.threads[t].pc;
       match move
       case Stays =>
         && r.m.works == s.m.works && r.m.persistQueued == s.m.persistQueued
         && to.Claimed? == from.Claimed? && to.PersistWriting? == from.PersistWriting?
       case Takes =>
         && from.Holding? && to.Claimed? && r.m.works == s.m.works && !s.m.persistQueued && r.m.persistQueued
       case Queues =>
         && from.Claimed? && to.Holding?
         && r.m.works == s.m.works + multiset{t} && r.m.persistQueued == s.m.persistQueued
       case GivesUp => from.Claimed? && to.Holding? && r.m.works == s.m.works && !r.m.persistQueued
       case Starts =>
         && from.Idle? && to.PersistWriting? && t in s.m.works && Persistable(s.m)
         && r.m.works == s.m.works - multiset{t} && !r.m.persistQueued
       case Skips =>
         && from.Idle? && to.Idle? && t in s.m.works && !Persistable(s.m)
         && r.m.works == s.m.works - multiset{t} && !r.m.persistQueued
       case Writes =>
         && from.PersistWriting? && !to.PersistWriting? && !to.Claimed?
         && r.m.works == s.m.works && r.m.persistQueued == s.m.persistQueued
  }

  lemma QueueMoves(s: State, x: Action) returns (move: ClaimMove)
    requires x.Claim? || x.QueuePersist? || x.PersistStart?
    requires At(s, x.t)
    ensures Moves(s, Persist(s, x), x.t, move)
    ensures move.Takes? ==> x.Claim?
    ensures move.Starts? <==> x.PersistStart? && s.threads[x.t].pc.Idle? && x.t in s.m.works && Persistable(s.m)
  {
    hide Persistable;
    var pc := s.threads[x.t].pc;
    assert s.threads[x.t := s.threads[x.t]] == s.threads;
    move := Stays;
    match x {
      case Claim(t) =>
        if Persist(s, x) != s { move := Takes; }
      case QueuePersist(t, accepted) =>
        if pc.Claimed? { move := if accepted then Queues else GivesUp; }
      case PersistStart(t) =>
        if pc.Idle? && t in s.m.works { move := if Persistable(s.m) then Starts else Skips; }
    }
  }

  lemma WriteMoves(s: State, x: Action) returns (move: ClaimMove)
    requires x.PersistWritten? || x.Promote?
    requires At(s, x.t)
    ensures Moves(s, Persist(s, x), x.t, move) && !move.Takes? && !move.Starts?
  {
    hide Wrap;
    hide Unref;
    hide PendingEntry;
    hide Readers;
    hide Persistable;
    var pc := s.threads[x.t].pc;
    assert s.threads[x.t := s.threads[x.t]] == s.threads;
    move := if x.PersistWritten? && pc.PersistWriting? && x.at !in s.m.heap then Writes else Stays;
  }

  lemma StepMoves(s: State, x: Action, t: nat) returns (move: ClaimMove)
    requires Alive(s) && ByThread(x, t) && At(s, t)
    ensures Moves(s, Step(s, x), t, move)
    ensures move.Takes? ==> x.Claim?
    ensures move.Starts? <==> x.PersistStart? && s.threads[t].pc.Idle? && t in s.m.works && Persistable(s.m)
  {
    hide Balanced;
    hide Fast;
    hide Lookup;
    hide Persist;
    hide Quiet;
    hide Persistable;
    move := Stays;
    if x.Deref? || x.RcuPin? || x.DropProbe? || x.Release? {
      FastShape(s, x);
      OnlyThreadMoves(s, Fast(s, x), t);
      FastKeepsClaim(s, x);
    } else if x.Call? || x.ReadDone? || x.Relock? || x.SynthSnapshot? || x.SynthDone? || x.SynthRelock? {
      LookupShape(s, x);
      OnlyThreadMoves(s, Lookup(s, x), t);
      LookupKeepsClaim(s, x);
    } else {
      if x.PersistWritten? || x.Promote? {
        move := WriteMoves(s, x);
      } else {
        move := QueueMoves(s, x);
      }
    }
  }

  lemma OutsideKeepsClaim(s: State, x: Action)
    requires x.SetSecurity? || x.PostSetxattr? || x.Invalidate? || x.BumpGeneration? || x.GracePeriod?
    ensures Step(s, x).threads == s.threads && Step(s, x).m.works == s.m.works
    ensures Step(s, x).m.persistQueued == s.m.persistQueued
  {}

  lemma MovesOwned(s: State, r: State, t: nat, move: ClaimMove)
    requires ClaimOwned(s) && Moves(s, r, t, move)
    ensures ClaimOwned(r)
  {
    hide Persistable;
    DoingUpdate(s.threads, t, r.threads[t], false);
  }

  lemma StepOwned(s: State, x: Action)
    requires Alive(s) && ClaimOwned(s)
    ensures ClaimOwned(Step(s, x))
  {
    hide Balanced;
    hide Act;
    hide Moves;
    if x.SetSecurity? || x.PostSetxattr? || x.Invalidate? || x.BumpGeneration? || x.GracePeriod? {
      OutsideKeepsClaim(s, x);
    } else if !At(s, x.t) {
      NobodyActs(s, x);
    } else {
      var move := StepMoves(s, x, x.t);
      MovesOwned(s, Step(s, x), x.t, move);
    }
  }

  /** Over every schedule the claim bit is set exactly while one thread is queueing a
      write-back or one is queued and not yet started, so an inode never has two queued. */
  lemma {:induction false} OneQueuedWriteBack(reread: bool, n: nat, xs: seq<Action>)
    ensures ClaimOwned(Execute(Init(reread, n), xs))
  {
    hide Balanced;
    hide Step;
    if xs == [] {
      NobodyDoes(Init(reread, n).threads, false);
    } else {
      OneQueuedWriteBack(reread, n, xs[..|xs| - 1]);
      NothingUsedIsFreed(reread, n, xs[..|xs| - 1]);
      StepOwned(Execute(Init(reread, n), xs[..|xs| - 1]), xs[|xs| - 1]);
    }
  }

  // ----- overlapping write-backs -----

  /** The step takes the claim. */
  predicate TakesClaim(s: State, x: Action) {
    x.Claim? && !s.m.persistQueued && Step(s, x).m.persistQueued
  }

  /** No claim is taken while a write-back is being written. */
  ghost predicate CalmClaims(s: State, xs: seq<Action>) {
    forall k :: 0 <= k < |xs| && TakesClaim(Execute(s, xs[..k]), xs[k]) ==>
      Doing(Execute(s, xs[..k]).threads, true) == 0
  }

  /** Write-backs being queued, queued, and being written. */
  function WriteBacks(s: State): nat {
    Doing(s.threads, false) + |s.m.works| + Doing(s.threads, true)
  }

  lemma MovesAlone(s: State, r: State, t: nat, move: ClaimMove)
    requires ClaimOwned(s) && WriteBacks(s) <= 1 && Moves(s, r, t, move)
    requires move.Takes? ==> Doing(s.threads, true) == 0
    ensures WriteBacks(r) <= 1
  {
    hide Persistable;
    DoingUpdate(s.threads, t, r.threads[t], false);
    DoingUpdate(s.threads, t, r.threads[t], true);
  }

  lemma StepAlone(s: State, x: Action)
    requires Alive(s) && ClaimOwned(s) && WriteBacks(s) <= 1
    requires TakesClaim(s, x) ==> Doing(s.threads, true) == 0
    ensures WriteBacks(Step(s, x)) <= 1
  {
    hide Balanced;
    hide Act;
    if x.SetSecurity? || x.PostSetxattr? || x.Invalidate? || x.BumpGeneration? || x.GracePeriod? {
      OutsideKeepsClaim(s, x);
    } else if !At(s, x.t) {
      NobodyActs(s, x);
    } else {
      var move := StepMoves(s, x, x.t);
      MovesAlone(s, Step(s, x), x.t, move);
    }
  }

  /** If no claim is taken while a write-back is being written, then over the whole run
      at most one write-back is being queued, queued or written. */
  lemma {:induction false} OneWriteBackUnlessClaimedMeanwhile(reread: bool, n: nat, xs: seq<Action>)
    requires CalmClaims(Init(reread, n), xs)
    ensures WriteBacks(Execute(Init(reread, n), xs)) <= 1
  {
    hide Balanced;
    hide Step;
    hide ClaimOwned;
    var s0 := Init(reread, n);
    if xs == [] {
      NobodyDoes(s0.threads, false);
      NobodyDoes(s0.threads, true);
    } else {
      var ys := xs[..|xs| - 1];
      forall k | 0 <= k < |ys| && TakesClaim(Execute(s0, ys[..k]), ys[k])
        ensures Doing(Execute(s0, ys[..k]).threads, true) == 0
      {
        assert ys[..k] == xs[..k];
        assert TakesClaim(Execute(s0, xs[..k]), xs[k]);
      }
      OneWriteBackUnlessClaimedMeanwhile(reread, n, ys);
      OneQueuedWriteBack(reread, n, ys);
      NothingUsedIsFreed(reread, n, ys);
      assert xs[..|ys|] == ys;
      StepAlone(Execute(s0, ys), xs[|xs| - 1]);
    }
  }

  /** Exactly when a second write-back starts writing: beside one that is, a thread runs
      a work of its own that was queued by a claim taken meanwhile, and the slot still
      shows an entry to write back. */
  lemma SecondWriterIff(reread: bool, n: nat, xs: seq<Action>, t: nat)
    requires Doing(Execute(Init(reread, n), xs).threads, true) == 1
    ensures
      var s := Execute(Init(reread, n), xs);
      && (Doing(Step(s, PersistStart(t)).threads, true) == 2 <==>
          At(s, t) && s.threads[t].pc.Idle? && t in s.m.works && Persistable(s.m))
      && (t in s.m.works ==> !CalmClaims(Init(reread, n), xs))
  {
    hide Balanced;
    hide Step;
    hide Persistable;
    var s := Execute(Init(reread, n), xs);
    NothingUsedIsFreed(reread, n, xs);
    if At(s, t) {
      var move := StepMoves(s, PersistStart(t), t);
      DoingUpdate(s.threads, t, Step(s, PersistStart(t)).threads[t], true);
    } else {
      AbsentStart(s, t);
    }
    if t in s.m.works && CalmClaims(Init(reread, n), xs) {
      OneWriteBackUnlessClaimedMeanwhile(reread, n, xs);
    }
  }

  lemma AbsentStart(s: State, t: nat)
    requires !At(s, t)
    ensures Step(s, PersistStart(t)).threads == s.threads
  {}

  // ----- promotion -----

  /** A promotion only re-labels: it replaces a pending synthetic entry by a stored one
      exactly when the slot still has one with the bytes that were written, and otherwise
      leaves the slot alone. */
  lemma PromotionKeepsTheBytes(reread: bool, n: nat, xs: seq<Action>, t: nat)
    requires
      var s := Execute(Init(reread, n), xs);
      At(s, t) && s.threads[t].pc.Promoting?
    ensures
      var s := Execute(Init(reread, n), xs);
      Relabels(SlotEntry(s.m), SlotEntry(Step(s, Promote(t)).m), s.threads[t].pc.bytes)
  {
    NothingUsedIsFreed(reread, n, xs);
    hide Alive;
    hide Step;
    PromotionRelabels(Execute(Init(reread, n), xs), t);
  }

  lemma PromotionRelabels(s: State, t: nat)
    requires Alive(s) && At(s, t) && s.threads[t].pc.Promoting?
    ensures Relabels(SlotEntry(s.m), SlotEntry(Step(s, Promote(t)).m), s.threads[t].pc.bytes)
  {
    hide Balanced;
    hide Wrap;
    assert PcSound(s.m, t, s.threads[t].pc);
    if PendingEntry(s.m, s.threads[t].pc.bytes) {
      assert SlotEntry(Step(s, Promote(t)).m) == Some(s.m.heap[s.threads[t].pc.a].entry);
    } else {
      ActAlive(s, Promote(t));
      SlotEntryKept(s, Act(s, Promote(t)));
    }
  }

  /** A pending entry with these bytes gives way to a stored one; nothing else moves. */
  predicate Relabels(before: Option<Entry>, after: Option<Entry>, bytes: Bytes) {
    if before.Some? && before.value.state.Valid? && before.value.source.SyntheticPending? && before.value.bytes == bytes
    then
      && after.Some? && after.value.state.Valid? && after.value.source.FromXattr?
      && after.value.bytes == before.value.bytes
    else after == before
  }
}
