/** The descriptor-cache protocol of one inode, as the interleaving of the
    critical sections its threads run.

    Every section that the kernel runs under the inode's descriptor mutex is one
    atomic action; the mutex is free between actions, so an action sequence is an
    arbitrary interleaving.  Cache entries live at addresses that the allocator
    may hand out again once an entry is freed, so pointer comparison means what
    it means in the kernel.  Counters are stored wrapped, as the kernel stores
    them; the fields under "history" record what happened and are never read by
    the protocol itself. */
module SdCacheMachine {
  import opened Widths
  import opened Descriptors

  type Addr = nat

  /** Where an entry's content came from: an xattr read that began at a given
      time, or bytes an explicit writer supplied. */
  datatype Origin = Read(began: nat) | Written

  datatype Entry = Entry(
    state: SdState,
    source: Source,
    bytes: Bytes,
    generation: nat,
    origin: Origin,
    ticket: nat)

  datatype Cell = Cell(entry: Entry, refs: nat)

  type Heap = map<Addr, Cell>

  /** A `call_rcu` release that waits for the read-side sections open when it
      was queued. */
  datatype Deferred = Deferred(entry: Addr, readers: set<nat>)

  /** What happened so far; the protocol never reads it. */
  datatype History = History(
    clock: nat,
    epochs: nat,
    invalidations: nat,
    tickets: nat,
    published: nat,
    bumps: nat,
    lastHook: nat,
    lastReplace: nat,
    lastBump: nat,
    starts: seq<nat>)

  /** The fields the inode's mutex protects, the allocator, the threads whose task work
      holds a queued write-back, and the history. */
  datatype Shared = Shared(
    slot: Option<Addr>,
    epoch: nat,
    invalidation: nat,
    readTicket: nat,
    publishedTicket: nat,
    persistQueued: bool,
    generation: nat,
    heap: Heap,
    pending: seq<Deferred>,
    works: multiset<nat>,
    past: History)

  /** What a thread copied out before it dropped the mutex.  The fields from
      `entry` on are history. */
  datatype Window = Window(
    cache: Option<Addr>,
    generation: nat,
    epoch: nat,
    invalidation: nat,
    ticket: nat,
    entry: Option<Entry>,
    origin: Origin,
    epochs: nat,
    invalidations: nat,
    bumps: nat,
    tickets: nat,
    interference: nat)

  datatype Pc =
    | Idle
    | InRcu(a: Addr, e: Entry)
    | Probed(a: Addr, e: Entry)
    | Reading(w: Window)
    | ReadBack(w: Window, made: Option<Addr>)
    | Synthesizing(w: Window, tag: Option<nat>)
    | SynthBack(w: Window, made: Option<Addr>)
    | Holding(a: Addr, e: Entry)
    | Claimed(a: Addr, e: Entry)
    | PersistWriting(bytes: Bytes)
    | Promoting(a: Addr, bytes: Bytes)

  /** `readCount`, `synths` and `seen` count, for the lookup in progress, its xattr
      reads, its syntheses and the interfering steps inside its windows. */
  datatype Thread = Thread(pc: Pc, readCount: nat, synths: nat, seen: nat)

  datatype State = State(reread: bool, m: Shared, threads: seq<Thread>, calls: nat, readCount: nat)

  datatype ReadOutcome = ReadFailed | NoDescriptor | BadDescriptor | Stored(bytes: Bytes)

  datatype SynthOutcome = SynthFailed | Synthesized(bytes: Bytes, persistent: bool)

  datatype Action =
    | Deref(t: nat, synthesizes: bool)
    | RcuPin(t: nat)
    | DropProbe(t: nat)
    | Call(t: nat, synthesizes: bool)
    | ReadDone(t: nat, outcome: ReadOutcome, at: Addr)
    | Relock(t: nat, synthesizes: bool)
    | SynthSnapshot(t: nat)
    | SynthDone(t: nat, synth: SynthOutcome, at: Addr)
    | SynthRelock(t: nat, synthesizes: bool)
    | Release(t: nat)
    | Claim(t: nat)
    | QueuePersist(t: nat, accepted: bool)
    | PersistStart(t: nat)
    | PersistWritten(t: nat, ok: bool, at: Addr)
    | Promote(t: nat)
    | SetSecurity(bytes: Bytes, at: Addr)
    | PostSetxattr
    | Invalidate
    | BumpGeneration
    | GracePeriod(k: nat)

  // ----- references -----

  function Ref(h: Heap, a: Addr): Heap {
    if a in h then h[a := h[a].(refs := h[a].refs + 1)] else h
  }

  /** Drops one reference; the last one frees the entry. */
  function Unref(h: Heap, a: Addr): Heap {
    if a !in h then h
    else if h[a].refs <= 1 then h - {a}
    else h[a := h[a].(refs := h[a].refs - 1)]
  }

  function UnrefOption(h: Heap, a: Option<Addr>): Heap {
    if a.None? then h else Unref(h, a.value)
  }

  function Readers(threads: seq<Thread>): set<nat> {
    set i | 0 <= i < |threads| && threads[i].pc.InRcu?
  }

  function Defer(m: Shared, gone: Option<Addr>, readers: set<nat>): Shared {
    if gone.None? then m
    else m.(pending := m.pending + [Deferred(gone.value, readers)])
  }

  // ----- the slot -----

  /** `pkm_kacs_inode_sd_cache_current` */
  predicate Current(m: Shared, e: Entry) {
    TagFits(e.source, e.generation, m.generation)
  }

  /** `pkm_kacs_inode_replace_sd_cache_locked` */
  function Replace(m: Shared, entry: Option<Addr>, readers: set<nat>): Shared {
    var m1 := m.(epoch := Wrap(m.epoch + 1), invalidation := Wrap(m.invalidation + 1),
                 publishedTicket := m.readTicket, slot := entry,
                 past := m.past.(epochs := m.past.epochs + 1, invalidations := m.past.invalidations + 1,
                                 published := m.past.tickets, lastReplace := m.past.clock));
    Defer(m1, m.slot, readers)
  }

  /** The body of `pkm_kacs_inode_try_publish_sd_cache` once the comparison holds. */
  function Publish(m: Shared, entry: Addr): Shared {
    m.(slot := Some(entry), epoch := Wrap(m.epoch + 1), past := m.past.(epochs := m.past.epochs + 1))
  }

  /** The steps that can make a lookup retry: on StrataFS only explicit
      replacements and policy changes, elsewhere also every publication. */
  function Interference(reread: bool, m: Shared): nat {
    (if reread then m.past.invalidations else m.past.epochs) + m.past.bumps
  }

  // ----- thread bookkeeping -----

  predicate At(s: State, t: nat) {
    t < |s.threads|
  }

  function SetPc(s: State, t: nat, pc: Pc): State
    requires At(s, t)
  {
    s.(threads := s.threads[t := s.threads[t].(pc := pc)])
  }

  function SetHeap(s: State, h: Heap): State {
    s.(m := s.m.(heap := h))
  }

  /** Everything a window copies out while the mutex is still held. */
  function Snapshot(s: State, cache: Option<Addr>, ticket: nat, tickets: nat, origin: Origin): Window {
    Window(cache, s.m.generation, s.m.epoch, s.m.invalidation, ticket,
           if cache.Some? && cache.value in s.m.heap then Some(s.m.heap[cache.value].entry) else None,
           origin, s.m.past.epochs, s.m.past.invalidations, s.m.past.bumps, tickets, Interference(s.reread, s.m))
  }

  // ----- lookup, with the mutex held -----

  function TicketTaken(past: History): History {
    past.(tickets := past.tickets + 1, starts := past.starts + [past.clock])
  }

  /** The unlocked read starts: pin the entry, copy the counters, take a ticket. */
  function BeginRead(s: State, t: nat): State
    requires At(s, t)
  {
    var m := s.m;
    var h := if m.slot.Some? then Ref(m.heap, m.slot.value) else m.heap;
    var m1 := if s.reread
              then m.(heap := h, readTicket := Wrap(m.readTicket + 1), past := TicketTaken(m.past))
              else m.(heap := h);
    var w := Snapshot(s.(m := m1), m.slot, m1.readTicket, m1.past.tickets, Read(m.past.clock));
    var th := s.threads[t];
    s.(m := m1, readCount := s.readCount + 1,
       threads := s.threads[t := th.(pc := Reading(w), readCount := th.readCount + 1)])
  }

  /** What `resolve_effective_cache_locked` does with the entry it got: return it
      pinned, or drop the mutex to synthesize over a missing one. */
  function AfterPopulate(s: State, t: nat, a: Addr, synthesizes: bool): State
    requires At(s, t)
  {
    if a !in s.m.heap then SetPc(s, t, Idle)
    else
      var e := s.m.heap[a].entry;
      var s1 := SetHeap(s, Ref(s.m.heap, a));
      if e.state.Missing? && synthesizes && !s.reread then
        var th := s.threads[t];
        var w := Snapshot(s1, Some(a), 0, 0, e.origin);
        s1.(threads := s.threads[t := th.(pc := Synthesizing(w, None), synths := th.synths + 1)])
      else SetPc(s1, t, Holding(a, e))
  }

  predicate Hit(s: State) {
    && !s.reread
    && s.m.slot.Some?
    && s.m.slot.value in s.m.heap
    && Current(s.m, s.m.heap[s.m.slot.value].entry)
  }

  /** A lookup starts its own counts. */
  function Enter(s: State, t: nat): State
    requires At(s, t)
  {
    s.(calls := s.calls + 1, threads := s.threads[t := Thread(Idle, 0, 0, 0)])
  }

  /** The `retry` label of `get_or_populate_cache_locked`. */
  function Locked(s: State, t: nat, synthesizes: bool): State
    requires At(s, t)
  {
    if Hit(s) then AfterPopulate(s, t, s.m.slot.value, synthesizes) else BeginRead(s, t)
  }

  /** The interference a closing window saw is added to its thread's count. */
  function CloseWindow(s: State, t: nat, w: Window): State
    requires At(s, t)
  {
    var th := s.threads[t];
    var now := Interference(s.reread, s.m);
    var more := if now >= w.interference then now - w.interference else 0;
    s.(threads := s.threads[t := th.(pc := Idle, seen := th.seen + more)])
  }

  function DropBoth(s: State, made: Option<Addr>, cache: Option<Addr>): State {
    SetHeap(s, UnrefOption(UnrefOption(s.m.heap, made), cache))
  }

  /** The comparison a reader makes after it has the mutex again. */
  predicate ReadOutdated(s: State, w: Window) {
    || (if s.reread then w.invalidation != s.m.invalidation
        else s.m.slot != w.cache || w.epoch != s.m.epoch)
    || w.generation != s.m.generation
  }

  /** Another StrataFS reader published an observation that began later. */
  predicate ReusePublished(s: State, w: Window) {
    && s.reread
    && s.m.slot.Some?
    && s.m.slot != w.cache
    && SignedDiff(s.m.publishedTicket, w.ticket) > 0
  }

  function PublishRead(s: State, w: Window, made: Addr): State {
    var m1 := Publish(s.m, made);
    var m2 := if s.reread then m1.(publishedTicket := w.ticket, past := m1.past.(published := w.tickets)) else m1;
    s.(m := Defer(m2, s.m.slot, Readers(s.threads)))
  }

  function FinishRead(s: State, t: nat, w: Window, made: Option<Addr>, synthesizes: bool): State
    requires At(s, t)
  {
    var s1 := CloseWindow(s, t, w);
    if ReadOutdated(s, w) then Locked(DropBoth(s1, made, w.cache), t, synthesizes)
    else if made.None? then DropBoth(s1, None, w.cache)
    else if ReusePublished(s, w) then AfterPopulate(DropBoth(s1, made, w.cache), t, s.m.slot.value, synthesizes)
    else AfterPopulate(DropBoth(PublishRead(s1, w, made.value), None, w.cache), t, made.value, synthesizes)
  }

  /** The comparison a synthesizing thread makes after it has the mutex again. */
  predicate SynthOutdated(s: State, w: Window, made: Option<Addr>) {
    || s.m.slot != w.cache
    || w.epoch != s.m.epoch
    || (w.cache.Some? && w.cache.value in s.m.heap && !Current(s.m, s.m.heap[w.cache.value].entry))
    || (made.Some? && made.value in s.m.heap && !Current(s.m, s.m.heap[made.value].entry))
  }

  function FinishSynthesis(s: State, t: nat, w: Window, made: Option<Addr>, synthesizes: bool): State
    requires At(s, t)
  {
    var s1 := CloseWindow(s, t, w);
    if SynthOutdated(s, w, made) then Locked(DropBoth(s1, made, w.cache), t, synthesizes)
    else if made.None? then DropBoth(s1, None, w.cache)
    else
      var s2 := DropBoth(s1, None, w.cache);
      var s3 := s2.(m := Replace(s2.m, made, Readers(s2.threads)));
      if made.value !in s3.m.heap then s3
      else SetPc(SetHeap(s3, Ref(s3.m.heap, made.value)), t, Holding(made.value, s3.m.heap[made.value].entry))
  }

  // ----- entries -----

  function ReadEntry(m: Shared, w: Window, outcome: ReadOutcome): (r: Option<Entry>) {
    match outcome
    case ReadFailed => None
    case NoDescriptor => Some(Entry(Missing, FromMissing, [], m.generation, w.origin, w.tickets))
    case BadDescriptor => Some(Entry(Corrupt, FromCorrupt, [], 0, w.origin, w.tickets))
    case Stored(bytes) => Some(Entry(Valid, FromXattr, bytes, 0, w.origin, w.tickets))
  }

  /** A synthesized entry carries the generation that was read with the template. */
  function SynthEntry(w: Window, tag: Option<nat>, outcome: SynthOutcome): (r: Option<Entry>) {
    match outcome
    case SynthFailed => None
    case Synthesized(bytes, persistent) =>
      if tag.None? then None
      else Some(Entry(Valid, if persistent then SyntheticPending else Synthetic, bytes, tag.value, w.origin, 0))
  }

  function Alloc(s: State, at: Addr, e: Entry): State {
    SetHeap(s, s.m.heap[at := Cell(e, 1)])
  }

  predicate PendingEntry(m: Shared, bytes: Bytes) {
    && m.slot.Some?
    && m.slot.value in m.heap
    && var e := m.heap[m.slot.value].entry;
       e.state.Valid? && e.source.SyntheticPending? && e.bytes == bytes
  }

  predicate Persistable(m: Shared) {
    && m.slot.Some?
    && m.slot.value in m.heap
    && var e := m.heap[m.slot.value].entry;
       e.state.Valid? && e.source.SyntheticPending? && e.bytes != [] && e.generation == m.generation
  }

  function LeaveRcu(pending: seq<Deferred>, t: nat): seq<Deferred> {
    seq(|pending|, k requires 0 <= k < |pending| => pending[k].(readers := pending[k].readers - {t}))
  }

  /** A replacement that no lookup or promotion makes: by the descriptor a writer
      supplied, or by NULL after an xattr write or an invalidation. */
  function Hook(s: State, entry: Option<Addr>): State {
    var m1 := Replace(s.m, entry, Readers(s.threads));
    s.(m := m1.(past := m1.past.(lastHook := s.m.past.clock)))
  }

  // ----- one action -----

  function Fast(s: State, x: Action): State
    requires x.Deref? || x.RcuPin? || x.DropProbe? || x.Release?
  {
    if !At(s, x.t) then s
    else
      var pc := s.threads[x.t].pc;
      match x
      case Deref(t, synthesizes) =>
        if pc.Idle? && s.m.slot.Some? && s.m.slot.value in s.m.heap &&
           var e := s.m.heap[s.m.slot.value].entry;
           Current(s.m, e) && !(e.state.Missing? && synthesizes)
        then SetPc(s, t, InRcu(s.m.slot.value, s.m.heap[s.m.slot.value].entry))
        else s
      case RcuPin(t) =>
        if !pc.InRcu? then s
        else
          var s1 := s.(m := s.m.(pending := LeaveRcu(s.m.pending, t)));
          if pc.a in s.m.heap
          then SetPc(SetHeap(s1, Ref(s.m.heap, pc.a)), t,
                     if s.reread then Probed(pc.a, pc.e) else Holding(pc.a, pc.e))
          else SetPc(s1, t, Idle)
      case DropProbe(t) =>
        if pc.Probed? then SetPc(SetHeap(s, Unref(s.m.heap, pc.a)), t, Idle) else s
      case Release(t) =>
        if pc.Holding? then SetPc(SetHeap(s, Unref(s.m.heap, pc.a)), t, Idle) else s
  }

  function Lookup(s: State, x: Action): State
    requires x.Call? || x.ReadDone? || x.Relock? || x.SynthSnapshot? || x.SynthDone? || x.SynthRelock?
  {
    if !At(s, x.t) then s
    else
      var pc := s.threads[x.t].pc;
      match x
      case Call(t, synthesizes) =>
        if !pc.Idle? then s
        else
          var s1 := Enter(s, t);
          Locked(s1, t, synthesizes)
      case ReadDone(t, outcome, at) =>
        if !pc.Reading? || at in s.m.heap then s
        else
          var e := ReadEntry(s.m, pc.w, outcome);
          if e.None? then SetPc(s, t, ReadBack(pc.w, None))
          else SetPc(Alloc(s, at, e.value), t, ReadBack(pc.w, Some(at)))
      case Relock(t, synthesizes) =>
        if pc.ReadBack? then FinishRead(s, t, pc.w, pc.made, synthesizes) else s
      case SynthSnapshot(t) =>
        if pc.Synthesizing? && pc.tag.None? then SetPc(s, t, Synthesizing(pc.w, Some(s.m.generation))) else s
      case SynthDone(t, outcome, at) =>
        if !pc.Synthesizing? || at in s.m.heap then s
        else
          var e := SynthEntry(pc.w, pc.tag, outcome);
          if e.None? then SetPc(s, t, SynthBack(pc.w, None))
          else SetPc(Alloc(s, at, e.value), t, SynthBack(pc.w, Some(at)))
      case SynthRelock(t, synthesizes) =>
        if pc.SynthBack? then FinishSynthesis(s, t, pc.w, pc.made, synthesizes) else s
  }

  function Persist(s: State, x: Action): State
    requires x.Claim? || x.QueuePersist? || x.PersistStart? || x.PersistWritten? || x.Promote?
  {
    if !At(s, x.t) then s
    else
      var pc := s.threads[x.t].pc;
      match x
      case Claim(t) =>
        if pc.Holding? && pc.e.state.Valid? && pc.e.source.SyntheticPending? && !s.m.persistQueued
        then SetPc(s.(m := s.m.(persistQueued := true)), t, Claimed(pc.a, pc.e))
        else s
      case QueuePersist(t, accepted) =>
        if !pc.Claimed? then s
        else if accepted then SetPc(s.(m := s.m.(works := s.m.works + multiset{t})), t, Holding(pc.a, pc.e))
        else SetPc(s.(m := s.m.(persistQueued := false)), t, Holding(pc.a, pc.e))
      case PersistStart(t) =>
        if !pc.Idle? || t !in s.m.works then s
        else
          var s1 := s.(m := s.m.(works := s.m.works - multiset{t}, persistQueued := false));
          if Persistable(s.m) then SetPc(s1, t, PersistWriting(s.m.heap[s.m.slot.value].entry.bytes)) else s1
      case PersistWritten(t, ok, at) =>
        if !pc.PersistWriting? || at in s.m.heap then s
        else if !ok then SetPc(s, t, Idle)
        else
          var s1 := Hook(s, None);
          SetPc(Alloc(s1, at, Entry(Valid, FromXattr, pc.bytes, 0, Written, 0)), t, Promoting(at, pc.bytes))
      case Promote(t) =>
        if !pc.Promoting? then s
        else if PendingEntry(s.m, pc.bytes) then
          var s1 := SetPc(s, t, Idle);
          s1.(m := Replace(s1.m, Some(pc.a), Readers(s1.threads)))
        else SetPc(SetHeap(s, Unref(s.m.heap, pc.a)), t, Idle)
  }

  function Outside(s: State, x: Action): State
    requires x.SetSecurity? || x.PostSetxattr? || x.Invalidate? || x.BumpGeneration? || x.GracePeriod?
  {
    match x
    case SetSecurity(bytes, at) =>
      if at in s.m.heap then s
      else
        Hook(Alloc(s, at, Entry(Valid, FromXattr, bytes, 0, Written, 0)), Some(at))
    case PostSetxattr | Invalidate => Hook(s, None)
    case BumpGeneration =>
      s.(m := s.m.(generation := NextGeneration(s.m.generation),
                   past := s.m.past.(bumps := s.m.past.bumps + 1, lastBump := s.m.past.clock)))
    case GracePeriod(k) =>
      if k < |s.m.pending| && s.m.pending[k].readers == {}
      then s.(m := s.m.(pending := s.m.pending[..k] + s.m.pending[k + 1..],
                        heap := Unref(s.m.heap, s.m.pending[k].entry)))
      else s
  }

  function Act(s: State, x: Action): State {
    match x
    case Deref(_, _) | RcuPin(_) | DropProbe(_) | Release(_) => Fast(s, x)
    case Call(_, _) | ReadDone(_, _, _) | Relock(_, _) | SynthSnapshot(_) | SynthDone(_, _, _) | SynthRelock(_, _) =>
      Lookup(s, x)
    case Claim(_) | QueuePersist(_, _) | PersistStart(_) | PersistWritten(_, _, _) | Promote(_) => Persist(s, x)
    case SetSecurity(_, _) | PostSetxattr | Invalidate | BumpGeneration | GracePeriod(_) => Outside(s, x)
  }

  function Tick(s: State): State {
    s.(m := s.m.(past := s.m.past.(clock := s.m.past.clock + 1)))
  }

  /** One action; an action that is not enabled only lets time pass. */
  function Step(s: State, x: Action): State {
    Tick(Act(s, x))
  }

  function Init(reread: bool, n: nat): State {
    State(reread,
          Shared(None, 0, 0, 0, 0, false, 0, map[], [], multiset{}, History(1, 0, 0, 0, 0, 0, 0, 0, 0, [])),
          seq(n, i => Thread(Idle, 0, 0, 0)), 0, 0)
  }

  /** The state after a whole schedule. */
  function Execute(s: State, xs: seq<Action>): State {
    if xs == [] then s else Step(Execute(s, xs[..|xs| - 1]), xs[|xs| - 1])
  }

  lemma {:induction false} ExecuteAppend(s: State, xs: seq<Action>, ys: seq<Action>)
    ensures Execute(s, xs + ys) == Execute(Execute(s, xs), ys)
  {
    hide Step;
    if ys == [] {
      assert xs + ys == xs;
    } else {
      assert (xs + ys)[..|xs + ys| - 1] == xs + ys[..|ys| - 1];
      ExecuteAppend(s, xs, ys[..|ys| - 1]);
    }
  }
}
