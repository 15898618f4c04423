/** Resolving the effective descriptor of an object through the per-inode caches,
    with no writer and no policy change interfering: the caches refine the plain
    recursion over stored descriptors, and no two inode mutexes are ever held. */
module SdResolve {
  import opened Widths
  import opened Descriptors

  datatype Cached = Cached(state: SdState, source: Source, bytes: Bytes, generation: nat)

  datatype Errno = EACCES | ENOMEM | Errno(code: nat)

  datatype Result<+T> = Ok(value: T) | Err(error: Errno)

  /** What reading the descriptor xattr of an inode yields. */
  datatype Stored = Absent | Invalid | Descriptor(bytes: Bytes) | ReadError(error: Errno)

  /** The dentry above: none at the root, or one without a usable inode. */
  datatype Up = Root | Broken | Above(parent: nat)

  /** `synthesize` is the descriptor core's deterministic synthesis function. */
  datatype World = World(
    up: seq<Up>,
    stored: seq<Stored>,
    directory: seq<bool>,
    synthesizes: bool,
    persistent: bool,
    generation: nat,
    template: Result<Bytes>,
    reread: bool,
    synthesize: (Option<Bytes>, Bytes, bool) -> Result<Bytes>)

  const MAX_DEPTH: nat := 32

  type Slots = seq<Option<Cached>>

  /** Inodes are numbered so that every parent comes before its children. */
  predicate Tree(w: World) {
    && |w.up| == |w.stored| == |w.directory|
    && forall i :: 0 <= i < |w.up| ==> w.up[i].Above? ==> w.up[i].parent < i
  }

  // ----- the uncached definition -----

  /** The entry a plain read of inode `i` gives. */
  function Populated(w: World, i: nat): Result<Cached>
    requires Tree(w) && i < |w.up|
  {
    match w.stored[i]
    case ReadError(e) => Err(e)
    case Invalid => Ok(Cached(Corrupt, FromCorrupt, [], 0))
    case Descriptor(b) => Ok(Cached(Valid, FromXattr, b, 0))
    case Absent => Ok(Cached(Missing, FromMissing, [], w.generation))
  }

  function Synthesis(w: World, i: nat, parent: Option<Bytes>): Result<Cached>
    requires Tree(w) && i < |w.up| && w.template.Ok?
  {
    match w.synthesize(parent, w.template.value, w.directory[i])
    case Err(e) => Err(e)
    case Ok(b) => Ok(Cached(Valid, if w.persistent then SyntheticPending else Synthetic, b, w.generation))
  }

  /** The parent's bytes, if the parent can hand any down. */
  function Inheritable(r: Result<Cached>): Result<Bytes> {
    match r
    case Err(e) => Err(e)
    case Ok(c) => if c.state.Valid? && c.bytes != [] then Ok(c.bytes) else Err(EACCES)
  }

  /** What an inode's descriptor means: the stored bytes, or a synthesis from the
      meaning of its parent, with no cache and no bound on the depth. */
  function Ideal(w: World, i: nat): Result<Cached>
    requires Tree(w) && i < |w.up|
    decreases i
  {
    if !w.stored[i].Absent? || !w.synthesizes then Populated(w, i)
    else if w.template.Err? then Err(w.template.error)
    else match w.up[i]
      case Broken => Err(EACCES)
      case Root => Synthesis(w, i, None)
      case Above(p) =>
        var b := Inheritable(Ideal(w, p));
        if b.Err? then Err(b.error) else Synthesis(w, i, Some(b.value))
  }

  // ----- caches -----

  predicate Current(w: World, c: Cached) {
    TagFits(c.source, c.generation, w.generation)
  }

  /** Every current entry is what a read gives, or what the object means. */
  predicate Coherent(w: World, slots: Slots)
    requires Tree(w)
  {
    && |slots| == |w.up|
    && forall i :: 0 <= i < |slots| && slots[i].Some? ==> Fits(w, i, slots[i].value)
  }

  predicate Fits(w: World, i: nat, c: Cached)
    requires Tree(w) && i < |w.up|
  {
    Current(w, c) ==> Ok(c) == Populated(w, i) || Ok(c) == Ideal(w, i)
  }

  /** Whether resolving `i` has to synthesize. */
  predicate Needs(w: World, slots: Slots, i: nat)
    requires Tree(w) && i < |w.up| == |slots|
  {
    && w.synthesizes
    && w.stored[i].Absent?
    && (w.reread || slots[i].None? || !Current(w, slots[i].value) || slots[i].value.state.Missing?)
  }

  /** How many objects, from `i` upward without a gap, need synthesis. */
  function Run(w: World, slots: Slots, i: nat): nat
    requires Tree(w) && i < |w.up| == |slots|
    decreases i
  {
    if !Needs(w, slots, i) then 0
    else if w.template.Err? || !w.up[i].Above? then 1
    else 1 + Run(w, slots, w.up[i].parent)
  }

  /** The bound is met by a call at `depth`. */
  predicate TooDeep(w: World, slots: Slots, i: nat, depth: nat)
    requires Tree(w) && i < |w.up| == |slots|
  {
    Needs(w, slots, i) && depth + Run(w, slots, i) > MAX_DEPTH
  }

  function Bounded(w: World, slots: Slots, i: nat, depth: nat): Result<Cached>
    requires Tree(w) && i < |w.up| == |slots|
  {
    if TooDeep(w, slots, i, depth) then Err(EACCES) else Ideal(w, i)
  }

  /** Entries of higher-numbered inodes are untouched, coherence is kept, and no object
      needs a synthesis that it did not need before. */
  predicate Refreshed(w: World, before: Slots, slots: Slots, i: nat)
    requires Tree(w)
  {
    && Coherent(w, slots)
    && |before| == |slots|
    && (forall j :: i < j < |slots| ==> slots[j] == before[j])
    && (forall j :: 0 <= j < |slots| && Needs(w, slots, j) ==> Needs(w, before, j))
  }

  lemma MissingOnlyWhenAbsent(w: World, i: nat, c: Cached)
    requires Tree(w) && i < |w.up| && Current(w, c) && Fits(w, i, c)
    ensures c.state.Missing? && w.synthesizes ==> w.stored[i].Absent?
    ensures w.stored[i].Absent? && w.synthesizes && !c.state.Missing? ==> Ok(c) == Ideal(w, i)
  {}

  /** Only the slots at and above the object matter. */
  lemma {:induction false} RunDependsOnAncestors(w: World, slots: Slots, slots': Slots, i: nat)
    requires Tree(w) && i < |w.up| == |slots| == |slots'|
    requires Needs(w, slots, i) <==> Needs(w, slots', i)
    requires forall j :: 0 <= j < i ==> slots[j] == slots'[j]
    ensures Run(w, slots, i) == Run(w, slots', i)
    decreases i
  {
    if Needs(w, slots, i) && w.template.Ok? && w.up[i].Above? {
      RunDependsOnAncestors(w, slots, slots', w.up[i].parent);
    }
  }

  /** How the bounded result of a missing object follows from its parent's. */
  lemma BoundedFromParent(w: World, slots: Slots, i: nat, depth: nat)
    requires Tree(w) && i < |w.up| == |slots| && Needs(w, slots, i)
    requires depth < MAX_DEPTH && w.template.Ok? && w.up[i].Above?
    ensures
      var b := Inheritable(Bounded(w, slots, w.up[i].parent, depth + 1));
      Bounded(w, slots, i, depth) == if b.Err? then Err(b.error) else Synthesis(w, i, Some(b.value))
  {
    var p := w.up[i].parent;
    assert Run(w, slots, i) == 1 + Run(w, slots, p);
    assert TooDeep(w, slots, i, depth) <==> TooDeep(w, slots, p, depth + 1);
    assert Ideal(w, i) == var b := Inheritable(Ideal(w, p));
                          if b.Err? then Err(b.error) else Synthesis(w, i, Some(b.value));
  }

  lemma PendingIsValid(w: World, i: nat)
    requires Tree(w) && i < |w.up|
    ensures Ideal(w, i).Ok? && Ideal(w, i).value.source.SyntheticPending? ==> Ideal(w, i).value.state.Valid?
  {}

  /** One mounted filesystem: the inodes' slots, and the mutexes and write-back
      claims of the resolving thread. */
  class Mount {
    const w: World
    var slots: Slots
    var held: set<nat>
    var queued: set<nat>

    ghost predicate Valid()
      reads this
    {
      Tree(w) && Coherent(w, slots)
    }

    constructor (world: World)
      requires Tree(world)
      ensures Valid() && w == world && held == {} && queued == {}
    {
      w := world;
      slots := seq(|world.up|, i => None);
      held, queued := {}, {};
    }

    /** Takes an inode's descriptor mutex; the thread must hold no other. */
    method Lock(i: nat)
      requires held == {}
      modifies this`held
      ensures held == {i}
    {
      held := held + {i};
    }

    method Unlock(i: nat)
      requires held == {i}
      modifies this`held
      ensures held == {}
    {
      held := held - {i};
    }

    /** The slot's entry if it is current, otherwise a fresh read of the xattr, made
        with the mutex dropped. */
    method GetOrPopulate(i: nat) returns (r: Result<Cached>)
      requires Valid() && i < |slots| && held == {i}
      modifies this`slots, this`held
      ensures held == {i}
      ensures Refreshed(w, old(slots), slots, i)
      ensures forall j :: 0 <= j < i ==> slots[j] == old(slots[j])
      ensures r.Ok? ==> slots[i] == Some(r.value) && Current(w, r.value) && Fits(w, i, r.value)
      ensures r.Ok? ==> (Needs(w, old(slots), i) <==> w.synthesizes && r.value.state.Missing?)
      ensures r.Err? ==> r == Populated(w, i)
    {
      if slots[i].Some? && Current(w, slots[i].value) && !w.reread {
        MissingOnlyWhenAbsent(w, i, slots[i].value);
        return Ok(slots[i].value);
      }
      Unlock(i);
      r := Populated(w, i);
      Lock(i);
      if r.Ok? {
        slots := slots[i := Some(r.value)];
      }
    }

    /** Synthesizes a descriptor for `i`; called with no mutex held. */
    method SynthesizeMissing(i: nat, depth: nat) returns (r: Result<Cached>)
      requires Valid() && i < |slots| && held == {} && w.synthesizes && w.stored[i].Absent?
      modifies this`slots, this`held
      ensures held == {}
      ensures Refreshed(w, old(slots), slots, i) && slots[i] == old(slots[i])
      ensures Needs(w, old(slots), i) ==> r == Bounded(w, old(slots), i, depth)
      decreases i, 0
    {
      if depth >= MAX_DEPTH {
        return Err(EACCES);
      }
      if w.template.Err? {
        return Err(w.template.error);
      }
      match w.up[i] {
        case Broken => return Err(EACCES);
        case Root => r := Synthesis(w, i, None);
        case Above(p) =>
          if Needs(w, slots, i) {
            BoundedFromParent(w, slots, i, depth);
          }
          Lock(p);
          var above := Resolve(p, depth + 1);
          Unlock(p);
          var bytes := Inheritable(above);
          if bytes.Err? {
            return Err(bytes.error);
          }
          r := Synthesis(w, i, Some(bytes.value));
      }
    }

    /** The caller's own mutex is held on entry and on every return. */
    method Resolve(i: nat, depth: nat) returns (r: Result<Cached>)
      requires Valid() && i < |slots| && held == {i}
      modifies this`slots, this`held
      ensures held == {i}
      ensures Refreshed(w, old(slots), slots, i)
      ensures r == Bounded(w, old(slots), i, depth)
      ensures r.Ok? ==> slots[i] == Some(r.value)
      decreases i, 1
    {
      r := GetOrPopulate(i);
      RunDependsOnAncestors(w, old(slots), slots, i);
      if r.Ok? {
        MissingOnlyWhenAbsent(w, i, r.value);
      }
      if r.Err? || !r.value.state.Missing? || !w.synthesizes {
        return;
      }
      Unlock(i);
      r := SynthesizeMissing(i, depth);
      Lock(i);
      if r.Ok? {
        slots := slots[i := Some(r.value)];
      }
    }

    /** The effective descriptor of an object, by an access to the object itself:
        the meaning of the object unless more than 32 objects in a row, from it
        upward, have neither a stored nor a cached descriptor.  The mutex is free
        again afterwards, and only the object itself owes a write-back. */
    method GetEffective(i: nat) returns (r: Result<Cached>)
      requires Valid() && i < |slots| && held == {}
      modifies this
      ensures Valid() && held == {} && Refreshed(w, old(slots), slots, i)
      ensures r == Bounded(w, old(slots), i, 0)
      ensures queued == old(queued) + if r.Ok? && r.value.source.SyntheticPending? then {i} else {}
    {
      var hit := slots[i].Some? && Current(w, slots[i].value)
                 && !(slots[i].value.state.Missing? && w.synthesizes) && !w.reread;
      if hit {
        MissingOnlyWhenAbsent(w, i, slots[i].value);
        r := Ok(slots[i].value);
      } else {
        Lock(i);
        r := Resolve(i, 0);
        Unlock(i);
      }
      if r.Ok? && r.value.state.Valid? && r.value.source.SyntheticPending? {
        PendingIsValid(w, i);
        queued := queued + {i};
      }
    }
  }

  /** Warming any set of slots never lengthens a run. */
  lemma {:induction false} WarmerIsShallower(w: World, slots: Slots, slots': Slots, i: nat)
    requires Tree(w) && i < |w.up| == |slots| == |slots'|
    requires forall j :: 0 <= j <= i && Needs(w, slots', j) ==> Needs(w, slots, j)
    ensures Run(w, slots', i) <= Run(w, slots, i)
    ensures forall depth :: TooDeep(w, slots', i, depth) ==> TooDeep(w, slots, i, depth)
    decreases i
  {
    if Needs(w, slots', i) && w.template.Ok? && w.up[i].Above? {
      WarmerIsShallower(w, slots, slots', w.up[i].parent);
    }
  }

  /** Calls on any objects, one after the other: each leaves what the next one finds. */
  ghost predicate CallsRun(w: World, history: seq<Slots>, calls: seq<nat>)
    requires Tree(w)
  {
    && |history| == |calls| + 1 && Coherent(w, history[0])
    && forall k :: 0 <= k < |calls| ==> Refreshed(w, history[k], history[k + 1], calls[k])
  }

  /** What the caches hold never changes an answer, only whether the bound is met: after
      any calls on any objects, an object that could be resolved still resolves to the
      same descriptor, however warm its ancestors have become. */
  lemma {:induction false} CallsKeepAnswers(w: World, history: seq<Slots>, calls: seq<nat>, i: nat, depth: nat)
    requires Tree(w) && i < |w.up| && CallsRun(w, history, calls)
    ensures |history[|calls|]| == |w.up| == |history[0]|
    ensures Run(w, history[|calls|], i) <= Run(w, history[0], i)
    ensures TooDeep(w, history[|calls|], i, depth) ==> TooDeep(w, history[0], i, depth)
    ensures !TooDeep(w, history[0], i, depth) ==>
              Bounded(w, history[|calls|], i, depth) == Bounded(w, history[0], i, depth)
    decreases |calls|
  {
    if calls != [] {
      var n := |calls| - 1;
      CallsKeepAnswers(w, history[..n + 1], calls[..n], i, depth);
      assert Refreshed(w, history[n], history[n + 1], calls[n]);
      WarmerIsShallower(w, history[n], history[n + 1], i);
    }
  }

  /** The k-th object above `i`, if there is one. */
  function Ancestor(w: World, i: nat, k: nat): (a: Option<nat>)
    requires Tree(w) && i < |w.up|
    ensures a.Some? ==> a.value < |w.up|
    decreases k
  {
    if k == 0 then Some(i) else if w.up[i].Above? then Ancestor(w, w.up[i].parent, k - 1) else None
  }

  /** Objects 0 to `n` steps above `i` exist and store no descriptor. */
  predicate Gap(w: World, i: nat, n: nat)
    requires Tree(w) && i < |w.up|
  {
    forall k :: 0 <= k <= n ==> Ancestor(w, i, k).Some? && w.stored[Ancestor(w, i, k).value].Absent?
  }

  /** With nothing cached, a run is longer than `n` exactly when the object and the
      `n` objects above it all lack a stored descriptor. */
  lemma {:induction false} ColdRunIsTheGap(w: World, slots: Slots, i: nat, n: nat)
    requires Tree(w) && i < |w.up| == |slots| && w.template.Ok? && w.synthesizes
    requires forall j :: 0 <= j < |slots| ==> slots[j].None?
    ensures Run(w, slots, i) > n <==> Gap(w, i, n)
    decreases n
  {
    assert Ancestor(w, i, 0) == Some(i);
    if n > 0 && w.up[i].Above? {
      var p := w.up[i].parent;
      ColdRunIsTheGap(w, slots, p, n - 1);
      forall k | 0 <= k < n ensures Ancestor(w, i, k + 1) == Ancestor(w, p, k) {}
      if Gap(w, p, n - 1) && w.stored[i].Absent? {
        forall k | 0 <= k <= n ensures Ancestor(w, i, k).Some? && w.stored[Ancestor(w, i, k).value].Absent? {
          if k > 0 {
            assert Ancestor(w, p, k - 1).Some?;
          }
        }
      }
    } else if n > 0 {
      assert Ancestor(w, i, 1) == None;
    }
  }

  /** So an access to a cold object fails on the bound exactly when it and at least
      32 objects above it store nothing. */
  lemma ColdBound(w: World, slots: Slots, i: nat)
    requires Tree(w) && i < |w.up| == |slots| && w.template.Ok? && w.synthesizes
    requires forall j :: 0 <= j < |slots| ==> slots[j].None?
    ensures TooDeep(w, slots, i, 0) <==> Gap(w, i, MAX_DEPTH)
  {
    ColdRunIsTheGap(w, slots, i, MAX_DEPTH);
  }

  // ----- what a descriptor means, without the recursion -----

  /** `bs` derives the bytes `bs[0]` of object `i`: each object without a stored
      descriptor gets its bytes by one synthesis from the nonempty bytes of the object
      above, up to stored bytes or to the root. */
  predicate Derives(w: World, i: nat, bs: seq<Bytes>)
    requires Tree(w) && i < |w.up| && w.template.Ok?
    decreases |bs|
  {
    if bs == [] then false
    else if |bs| == 1 then
      || w.stored[i] == Descriptor(bs[0])
      || (&& w.stored[i].Absent? && w.up[i].Root?
          && w.synthesize(None, w.template.value, w.directory[i]) == Ok(bs[0]))
    else
      && w.stored[i].Absent? && w.up[i].Above? && bs[1] != []
      && w.synthesize(Some(bs[1]), w.template.value, w.directory[i]) == Ok(bs[0])
      && Derives(w, w.up[i].parent, bs[1..])
  }

  /** Where a descriptor that object `i` has comes from, and the policy it depends on. */
  predicate WellTagged(w: World, i: nat, c: Cached)
    requires Tree(w) && i < |w.up|
  {
    if w.stored[i].Descriptor? then c.source.FromXattr?
    else c.generation == w.generation && c.source == if w.persistent then SyntheticPending else Synthetic
  }

  lemma {:induction false} DerivedIsMeant(w: World, i: nat, bs: seq<Bytes>)
    requires Tree(w) && i < |w.up| && w.template.Ok? && w.synthesizes && Derives(w, i, bs)
    ensures
      var r := Ideal(w, i);
      r.Ok? && r.value.state.Valid? && r.value.bytes == bs[0] && WellTagged(w, i, r.value)
    decreases |bs|
  {
    if |bs| > 1 {
      DerivedIsMeant(w, w.up[i].parent, bs[1..]);
    }
  }

  lemma {:induction false} MeantIsDerived(w: World, i: nat) returns (bs: seq<Bytes>)
    requires Tree(w) && i < |w.up| && w.template.Ok? && w.synthesizes
    requires Ideal(w, i).Ok? && Ideal(w, i).value.state.Valid?
    ensures Derives(w, i, bs) && bs[0] == Ideal(w, i).value.bytes
    decreases i
  {
    var b := Ideal(w, i).value.bytes;
    if w.stored[i].Absent? && w.up[i].Above? {
      var above := MeantIsDerived(w, w.up[i].parent);
      bs := [b] + above;
      assert bs[1..] == above;
    } else {
      bs := [b];
    }
  }

  /** Under a policy that synthesizes, an object has a descriptor exactly if one can be
      derived, and then exactly that one; without it, exactly if one is stored. */
  lemma DescriptorIffDerivable(w: World, i: nat, b: Bytes)
    requires Tree(w) && i < |w.up|
    ensures
      var r := Ideal(w, i);
      var has := r.Ok? && r.value.state.Valid? && r.value.bytes == b;
      && (has ==> WellTagged(w, i, r.value))
      && (w.synthesizes && w.template.Ok? ==> (has <==> exists bs :: Derives(w, i, bs) && bs[0] == b))
      && (!w.synthesizes || w.template.Err? ==> (has <==> w.stored[i] == Descriptor(b)))
  {
    if w.synthesizes && w.template.Ok? {
      if Ideal(w, i).Ok? && Ideal(w, i).value.state.Valid? {
        var bs := MeantIsDerived(w, i);
        DerivedIsMeant(w, i, bs);
      }
      forall bs | Derives(w, i, bs) ensures Ideal(w, i).Ok? && Ideal(w, i).value.bytes == bs[0] {
        DerivedIsMeant(w, i, bs);
      }
    }
  }

  /** Otherwise the answer says why not: the stored descriptor is corrupt, or there is
      none and the policy makes none. */
  lemma NoDescriptorSaysWhy(w: World, i: nat)
    requires Tree(w) && i < |w.up|
    ensures
      var r := Ideal(w, i);
      && (r.Ok? && r.value.state.Corrupt? <==> w.stored[i].Invalid?)
      && (r.Ok? && r.value.state.Missing? <==> w.stored[i].Absent? && !w.synthesizes)
      && (r.Ok? && r.value.state.Missing? ==> r.value.source.FromMissing? && r.value.generation == w.generation)
      && (w.stored[i].ReadError? ==> r == Err(w.stored[i].error))
  {}

  /** A failure comes down from the nearest object that stores anything: its read error
      as it is, a corrupt or empty descriptor as a refusal. */
  lemma {:induction false} FailureComesDown(w: World, i: nat, n: nat)
    requires Tree(w) && i < |w.up| && w.template.Ok? && w.synthesizes
    requires 0 < n && Gap(w, i, n - 1) && Ancestor(w, i, n).Some?
    ensures
      var top := w.stored[Ancestor(w, i, n).value];
      && (top.ReadError? ==> Ideal(w, i) == Err(top.error))
      && (top.Invalid? || top == Descriptor([]) ==> Ideal(w, i) == Err(EACCES))
    decreases n
  {
    assert Ancestor(w, i, 0) == Some(i);
    var p := w.up[i].parent;
    if n > 1 {
      forall k | 0 <= k <= n - 2 ensures Ancestor(w, p, k).Some? && w.stored[Ancestor(w, p, k).value].Absent? {
        assert Ancestor(w, i, k + 1) == Ancestor(w, p, k);
      }
      FailureComesDown(w, p, n - 1);
    } else {
      assert Ancestor(w, i, 1) == Ancestor(w, p, 0);
    }
  }
}
