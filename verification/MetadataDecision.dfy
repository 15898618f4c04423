/** The single-use metadata decision of a task: begun by an entry point that has
    already checked a handle's grant, and consumed by the inode hook it was for.  One
    hook may look at it without consuming it. */
module MetadataDecision {
  import opened Widths

  type Inode = nat

  datatype OpClass = NoClass | GetAttr | SetAttr | GetXattr | SetXattr | FileattrGet | FileattrSet | OtherClass(n: nat)

  /** `id` and `chain` are history: which decision this is, and the inodes it has been
      bound to, from the one it was begun for to the current one. */
  datatype Decision = Decision(inode: Inode, op: OpClass, id: nat, chain: seq<Inode>)

  /** History: a hook that was let through and consumed the decision, or on StrataFS
      passed it on. */
  datatype Use = Use(id: nat, inode: Inode, op: OpClass, strata: bool, chain: seq<Inode>)

  /** History: a file-attribute read let through on a look at the decision, and how many
      uses there were by then. */
  datatype Peek = Peek(id: nat, inode: Inode, chain: seq<Inode>, after: nat)

  datatype Begun = Begun(inode: Inode, op: OpClass)

  /** `strata` are the inodes of StrataFS superblocks. */
  datatype State = State(
    slot: Option<Decision>,
    begun: seq<Begun>,
    uses: seq<Use>,
    peeks: seq<Peek>,
    rebound: set<(Inode, Inode)>)

  datatype Op =
    | Begin(inode: Inode, op: OpClass)
    | Consume(target: Option<Inode>, op: OpClass)
    | FileGetattr(target: Option<Inode>)
    | Rebind(outer: Inode, provider: Inode)
    | EndProvider(provider: Inode)
    | End(which: Option<Inode>)
    | ClearCurrent

  function Init(): State {
    State(None, [], [], [], {})
  }

  predicate Matches(s: State, target: Option<Inode>, op: OpClass) {
    s.slot.Some? && target == Some(s.slot.value.inode) && op == s.slot.value.op
  }

  function Consumed(s: State, strata: set<Inode>, target: Option<Inode>, op: OpClass): State {
    if s.slot.None? then s
    else if !Matches(s, target, op) then s.(slot := None)
    else
      var d := s.slot.value;
      var logged := s.(uses := s.uses + [Use(d.id, d.inode, op, d.inode in strata, d.chain)]);
      if d.inode in strata then logged else logged.(slot := None)
  }

  /** The file-attribute read hook: a decision to set the attributes of this very inode
      also lets it read them, and is still there afterwards. */
  function ReadFileattr(s: State, strata: set<Inode>, target: Option<Inode>): State {
    if Matches(s, target, FileattrSet)
    then s.(peeks := s.peeks + [Peek(s.slot.value.id, s.slot.value.inode, s.slot.value.chain, |s.uses|)])
    else Consumed(s, strata, target, FileattrGet)
  }

  function Do(s: State, strata: set<Inode>, x: Op): State {
    match x
    case Begin(inode, op) =>
      if op.NoClass? || s.slot.Some? then s
      else s.(slot := Some(Decision(inode, op, |s.begun|, [inode])), begun := s.begun + [Begun(inode, op)])
    case Consume(target, op) => Consumed(s, strata, target, op)
    case FileGetattr(target) => ReadFileattr(s, strata, target)
    case Rebind(outer, provider) =>
      if s.slot.Some? && s.slot.value.inode == outer
      then s.(slot := Some(s.slot.value.(inode := provider, chain := s.slot.value.chain + [provider])),
              rebound := s.rebound + {(outer, provider)})
      else s
    case EndProvider(provider) => if s.slot.Some? && s.slot.value.inode == provider then s.(slot := None) else s
    case End(which) =>
      if s.slot.Some? && (which.None? || Some(s.slot.value.inode) == which) then s.(slot := None) else s
    case ClearCurrent => s.(slot := None)
  }

  function Execute(strata: set<Inode>, xs: seq<Op>): State {
    if xs == [] then Init() else Do(Execute(strata, xs[..|xs| - 1]), strata, xs[|xs| - 1])
  }

  // ----- the slot on a task -----

  class TaskSecurity {
    var active: bool
    var inode: Inode
    var op: OpClass
    ghost var s: State

    ghost predicate Valid()
      reads this
    {
      if active then s.slot.Some? && s.slot.value.inode == inode && s.slot.value.op == op else s.slot.None?
    }

    constructor ()
      ensures Valid() && s == Init()
    {
      active, inode, op := false, 0, NoClass;
      s := Init();
    }

    method BeginDecision(i: Inode, c: OpClass) returns (ok: bool)
      requires Valid()
      modifies this
      ensures Valid() && s == Do(old(s), {}, Begin(i, c))
      ensures ok <==> !c.NoClass? && old(s).slot.None?
    {
      if c.NoClass? || active {
        return false;
      }
      s := Do(s, {}, Begin(i, c));
      inode, op := i, c;
      active := true;
      return true;
    }

    /** A hook asks; unless it is a StrataFS hook that matched, the decision is over. */
    method ConsumeDecision(strata: set<Inode>, target: Option<Inode>, c: OpClass) returns (matched: bool)
      requires Valid()
      modifies this
      ensures Valid() && s == Do(old(s), strata, Consume(target, c))
      ensures matched <==> Matches(old(s), target, c)
    {
      s := Do(s, strata, Consume(target, c));
      if !active {
        return false;
      }
      matched := target.Some? && inode == target.value && op == c;
      if matched && inode in strata {
        return true;
      }
      active, inode, op := false, 0, NoClass;
    }

    /** A read of file attributes; answers whether the decision lets it through. */
    method FileGetattrHook(strata: set<Inode>, target: Option<Inode>) returns (admitted: bool)
      requires Valid()
      modifies this
      ensures Valid() && s == Do(old(s), strata, FileGetattr(target))
      ensures admitted <==> Matches(old(s), target, FileattrSet) || Matches(old(s), target, FileattrGet)
    {
      if active && target.Some? && inode == target.value && op == FileattrSet {
        s := Do(s, strata, FileGetattr(target));
        return true;
      }
      assert Do(s, strata, FileGetattr(target)) == Do(s, strata, Consume(target, FileattrGet));
      admitted := ConsumeDecision(strata, target, FileattrGet);
    }

    method RebindDecision(outer: Inode, provider: Inode) returns (ok: bool)
      requires Valid()
      modifies this
      ensures Valid() && s == Do(old(s), {}, Rebind(outer, provider))
      ensures ok <==> old(s).slot.None? || old(s).slot.value.inode == outer
    {
      s := Do(s, {}, Rebind(outer, provider));
      if !active {
        return true;
      }
      if inode != outer {
        return false;
      }
      inode := provider;
      return true;
    }

    method EndMetadata(which: Option<Inode>)
      requires Valid()
      modifies this
      ensures Valid() && s == Do(old(s), {}, End(which))
    {
      s := Do(s, {}, End(which));
      if !active {
        return;
      }
      if which.None? || inode == which.value {
        active, inode, op := false, 0, NoClass;
      }
    }
  }

  // ----- over every run -----

  /** Each step of a chain is a rebinding that was made. */
  predicate Linked(chain: seq<Inode>, rebound: set<(Inode, Inode)>) {
    forall k :: 0 <= k < |chain| - 1 ==> (chain[k], chain[k + 1]) in rebound
  }

  /** A chain leads from the inode a decision was begun for to `inode`. */
  predicate Leads(s: State, id: nat, chain: seq<Inode>, inode: Inode, op: OpClass) {
    && id < |s.begun| && op == s.begun[id].op
    && chain != [] && chain[0] == s.begun[id].inode && chain[|chain| - 1] == inode
    && Linked(chain, s.rebound)
  }

  /** No two ordinary uses share a decision, an open decision has none, and none comes
      before a look at it. */
  predicate Sound(s: State) {
    && (forall i, j | 0 <= i < j < |s.uses| && !s.uses[i].strata :: s.uses[i].id != s.uses[j].id)
    && (forall i :: 0 <= i < |s.uses| ==> Leads(s, s.uses[i].id, s.uses[i].chain, s.uses[i].inode, s.uses[i].op))
    && (forall i :: 0 <= i < |s.peeks| ==>
          && Leads(s, s.peeks[i].id, s.peeks[i].chain, s.peeks[i].inode, FileattrSet)
          && s.peeks[i].after <= |s.uses|
          && forall j :: 0 <= j < s.peeks[i].after && !s.uses[j].strata ==> s.uses[j].id != s.peeks[i].id)
    && (s.slot.Some? ==>
          && Leads(s, s.slot.value.id, s.slot.value.chain, s.slot.value.inode, s.slot.value.op)
          && forall i :: 0 <= i < |s.uses| && !s.uses[i].strata ==> s.uses[i].id != s.slot.value.id)
  }

  lemma LeadsLater(s: State, r: State, id: nat, chain: seq<Inode>, inode: Inode, op: OpClass)
    requires Leads(s, id, chain, inode, op) && s.begun <= r.begun && s.rebound <= r.rebound
    ensures Leads(r, id, chain, inode, op)
  {}

  lemma SlotLeads(s: State, strata: set<Inode>, x: Op)
    requires Sound(s)
    ensures
      var r := Do(s, strata, x);
      r.slot.Some? ==> Leads(r, r.slot.value.id, r.slot.value.chain, r.slot.value.inode, r.slot.value.op)
  {
    var r := Do(s, strata, x);
    if x.Rebind? && r != s {
      var chain := s.slot.value.chain;
      assert chain + [x.provider] == r.slot.value.chain;
      LeadsLater(s, r, s.slot.value.id, chain, x.outer, s.slot.value.op);
    }
  }

  lemma DoSound(s: State, strata: set<Inode>, x: Op)
    requires Sound(s)
    ensures Sound(Do(s, strata, x))
  {
    SlotLeads(s, strata, x);
    var r := Do(s, strata, x);
    assert s.begun <= r.begun && s.rebound <= r.rebound;
    IdsExist(s);
    hide Leads;
    forall i | 0 <= i < |s.uses| ensures Leads(r, s.uses[i].id, s.uses[i].chain, s.uses[i].inode, s.uses[i].op) {
      LeadsLater(s, r, s.uses[i].id, s.uses[i].chain, s.uses[i].inode, s.uses[i].op);
    }
    forall i | 0 <= i < |s.peeks| ensures Leads(r, s.peeks[i].id, s.peeks[i].chain, s.peeks[i].inode, FileattrSet) {
      LeadsLater(s, r, s.peeks[i].id, s.peeks[i].chain, s.peeks[i].inode, FileattrSet);
    }
    if s.slot.Some? {
      var d := s.slot.value;
      LeadsLater(s, r, d.id, d.chain, d.inode, d.op);
    }
  }

  /** Uses are of decisions that were begun, so a new one has none. */
  lemma IdsExist(s: State)
    requires Sound(s)
    ensures forall i :: 0 <= i < |s.uses| ==> s.uses[i].id < |s.begun|
  {}

  lemma {:induction false} AlwaysSound(strata: set<Inode>, xs: seq<Op>)
    ensures Sound(Execute(strata, xs))
  {
    hide Do;
    hide Sound;
    if xs == [] {
      InitSound();
    } else {
      AlwaysSound(strata, xs[..|xs| - 1]);
      DoSound(Execute(strata, xs[..|xs| - 1]), strata, xs[|xs| - 1]);
    }
  }

  lemma InitSound()
    ensures Sound(Init())
  {}

  /** Each begun decision is consumed by at most one ordinary hook, and nothing uses or
      passes it on after that ... */
  lemma ConsumedAtMostOnce(strata: set<Inode>, xs: seq<Op>, i: nat, j: nat)
    requires
      var s := Execute(strata, xs);
      i < |s.uses| && j < |s.uses| && !s.uses[i].strata && s.uses[i].id == s.uses[j].id
    ensures j <= i && (!Execute(strata, xs).uses[j].strata ==> i == j)
  {
    AlwaysSound(strata, xs);
  }

  /** ... for its own operation class, and for the inode it was begun for or the last
      of the providers it was rebound to, each rebinding starting where the one
      before it ended. */
  lemma ConsumedForItsInode(strata: set<Inode>, xs: seq<Op>, i: nat)
    requires i < |Execute(strata, xs).uses|
    ensures
      var s := Execute(strata, xs);
      var u := s.uses[i];
      && u.id < |s.begun| && u.op == s.begun[u.id].op
      && u.chain != [] && u.chain[0] == s.begun[u.id].inode && u.chain[|u.chain| - 1] == u.inode
      && forall k :: 0 <= k < |u.chain| - 1 ==> (u.chain[k], u.chain[k + 1]) in s.rebound
  {
    AlwaysSound(strata, xs);
    var s := Execute(strata, xs);
    assert Leads(s, s.uses[i].id, s.uses[i].chain, s.uses[i].inode, s.uses[i].op);
  }

  /** The look that does not consume: over every run it happens only under a decision
      begun to set file attributes, on its own inode or the one it was rebound to, and
      never once an ordinary hook has consumed the decision. */
  lemma PeekedOnlyWhileOpen(strata: set<Inode>, xs: seq<Op>, i: nat, j: nat)
    requires i < |Execute(strata, xs).peeks|
    ensures
      var s := Execute(strata, xs);
      var p := s.peeks[i];
      && p.id < |s.begun| && s.begun[p.id].op.FileattrSet?
      && p.chain != [] && p.chain[0] == s.begun[p.id].inode && p.chain[|p.chain| - 1] == p.inode
      && (forall k :: 0 <= k < |p.chain| - 1 ==> (p.chain[k], p.chain[k + 1]) in s.rebound)
      && (j < p.after <= |s.uses| && s.uses[j].id == p.id ==> s.uses[j].strata)
  {
    AlwaysSound(strata, xs);
    var s := Execute(strata, xs);
    assert Leads(s, s.peeks[i].id, s.peeks[i].chain, s.peeks[i].inode, FileattrSet);
  }

  /** And it takes nothing: after any number of file-attribute reads on the decision's
      inode the decision to set them is still there, unused. */
  lemma {:induction false} PeeksTakeNothing(s: State, strata: set<Inode>, gets: seq<Op>)
    requires s.slot.Some? && s.slot.value.op.FileattrSet?
    requires forall k :: 0 <= k < |gets| ==> gets[k] == FileGetattr(Some(s.slot.value.inode))
    ensures
      var r := Continue(s, strata, gets);
      r.slot == s.slot && r.uses == s.uses && |r.peeks| == |s.peeks| + |gets|
  {
    if gets != [] {
      PeeksTakeNothing(s, strata, gets[..|gets| - 1]);
    }
  }

  // ----- an ended decision -----

  function Continue(s: State, strata: set<Inode>, xs: seq<Op>): State {
    if xs == [] then s else Do(Continue(s, strata, xs[..|xs| - 1]), strata, xs[|xs| - 1])
  }

  /** Everything new is about decisions begun since. */
  predicate OnlyLater(s: State, r: State) {
    && |s.begun| <= |r.begun| && |s.uses| <= |r.uses| && |s.peeks| <= |r.peeks|
    && (r.slot.Some? ==> |s.begun| <= r.slot.value.id)
    && (forall i :: |s.uses| <= i < |r.uses| ==> |s.begun| <= r.uses[i].id)
    && (forall i :: |s.peeks| <= i < |r.peeks| ==> |s.begun| <= r.peeks[i].id)
  }

  lemma StepOnlyLater(s: State, r: State, strata: set<Inode>, x: Op)
    requires OnlyLater(s, r)
    ensures OnlyLater(s, Do(r, strata, x))
  {}

  lemma {:induction false} ContinueOnlyLater(s: State, strata: set<Inode>, xs: seq<Op>)
    requires s.slot.None?
    ensures OnlyLater(s, Continue(s, strata, xs))
  {
    hide Do;
    if xs != [] {
      ContinueOnlyLater(s, strata, xs[..|xs| - 1]);
      StepOnlyLater(s, Continue(s, strata, xs[..|xs| - 1]), strata, xs[|xs| - 1]);
    }
  }

  /** A hook that does not match ends the decision for good: over every continuation it
      is never used, passed on or looked at again. */
  lemma MismatchEndsForGood(strata: set<Inode>, xs: seq<Op>, target: Option<Inode>, op: OpClass, ys: seq<Op>)
    requires Execute(strata, xs).slot.Some? && !Matches(Execute(strata, xs), target, op)
    ensures
      var s := Execute(strata, xs);
      var r := Continue(Do(s, strata, Consume(target, op)), strata, ys);
      && |s.uses| <= |r.uses| && |s.peeks| <= |r.peeks|
      && (r.slot.Some? ==> r.slot.value.id != s.slot.value.id)
      && (forall i :: |s.uses| <= i < |r.uses| ==> r.uses[i].id != s.slot.value.id)
      && (forall i :: |s.peeks| <= i < |r.peeks| ==> r.peeks[i].id != s.slot.value.id)
  {
    AlwaysSound(strata, xs);
    ContinueOnlyLater(Do(Execute(strata, xs), strata, Consume(target, op)), strata, ys);
  }

  /** So does an ending call that names it or names nothing in particular; one that names
      another inode leaves it alone. */
  lemma EndingEndsForGood(strata: set<Inode>, xs: seq<Op>, x: Op, ys: seq<Op>)
    requires Execute(strata, xs).slot.Some? && (x.EndProvider? || x.End? || x.ClearCurrent?)
    ensures
      var s := Execute(strata, xs);
      var named := (x.EndProvider? ==> x.provider == s.slot.value.inode) &&
                   (x.End? ==> x.which.None? || x.which.value == s.slot.value.inode);
      var r := Continue(Do(s, strata, x), strata, ys);
      && (!named ==> Do(s, strata, x) == s)
      && (named ==>
            && |s.uses| <= |r.uses| && |s.peeks| <= |r.peeks|
            && (r.slot.Some? ==> r.slot.value.id != s.slot.value.id)
            && (forall i :: |s.uses| <= i < |r.uses| ==> r.uses[i].id != s.slot.value.id)
            && (forall i :: |s.peeks| <= i < |r.peeks| ==> r.peeks[i].id != s.slot.value.id))
  {
    AlwaysSound(strata, xs);
    var s := Execute(strata, xs);
    assert Leads(s, s.slot.value.id, s.slot.value.chain, s.slot.value.inode, s.slot.value.op);
    hide Sound;
    hide Execute;
    var t := Do(s, strata, x);
    if t.slot.None? {
      ContinueOnlyLater(t, strata, ys);
    }
  }

  // ----- back to the calls -----

  /** Where the rebindings among `ys` have taken a decision begun for `inode`. */
  function Where(inode: Inode, ys: seq<Op>): Inode {
    if ys == [] then inode
    else
      var y, before := ys[|ys| - 1], Where(inode, ys[..|ys| - 1]);
      if y.Rebind? && y.outer == before then y.provider else before
  }

  /** Call `b` began a decision of class `op`, and the rebindings between `b` and `k` have
      taken it to `inode`. */
  predicate BegunBy(strata: set<Inode>, xs: seq<Op>, b: nat, k: nat, inode: Inode, op: OpClass) {
    && b < k <= |xs| && xs[b].Begin? && xs[b].op == op && !op.NoClass?
    && Execute(strata, xs[..b]).slot.None?
    && inode == Where(xs[b].inode, xs[b + 1..k])
  }

  ghost predicate HasBegun(strata: set<Inode>, xs: seq<Op>, k: nat, inode: Inode, op: OpClass) {
    exists b: nat :: BegunBy(strata, xs, b, k, inode, op)
  }

  /** Call `k` is a hook of this class on this inode, under a decision begun for it. */
  ghost predicate AskedAt(strata: set<Inode>, xs: seq<Op>, k: nat, inode: Inode, op: OpClass) {
    && k < |xs| && HasBegun(strata, xs, k, inode, op)
    && (xs[k] == Consume(Some(inode), op) || (xs[k] == FileGetattr(Some(inode)) && op.FileattrGet?))
  }

  ghost predicate PeekedAt(strata: set<Inode>, xs: seq<Op>, k: nat, inode: Inode) {
    k < |xs| && HasBegun(strata, xs, k, inode, FileattrSet) && xs[k] == FileGetattr(Some(inode))
  }

  ghost predicate UseTraced(strata: set<Inode>, xs: seq<Op>, u: Use) {
    exists k: nat :: AskedAt(strata, xs, k, u.inode, u.op)
  }

  ghost predicate PeekTraced(strata: set<Inode>, xs: seq<Op>, p: Peek) {
    exists k: nat :: PeekedAt(strata, xs, k, p.inode)
  }

  ghost predicate Traced(strata: set<Inode>, xs: seq<Op>) {
    var s := Execute(strata, xs);
    && (s.slot.Some? ==> HasBegun(strata, xs, |xs|, s.slot.value.inode, s.slot.value.op))
    && (forall i :: 0 <= i < |s.uses| ==> UseTraced(strata, xs, s.uses[i]))
    && (forall i :: 0 <= i < |s.peeks| ==> PeekTraced(strata, xs, s.peeks[i]))
  }

  lemma BegunGrows(strata: set<Inode>, xs: seq<Op>, k: nat, inode: Inode, op: OpClass)
    requires xs != [] && HasBegun(strata, xs[..|xs| - 1], k, inode, op)
    ensures HasBegun(strata, xs, k, inode, op)
  {
    hide Do;
    var ys := xs[..|xs| - 1];
    var b: nat :| BegunBy(strata, ys, b, k, inode, op);
    assert ys[..b] == xs[..b] && ys[b + 1..k] == xs[b + 1..k];
    assert BegunBy(strata, xs, b, k, inode, op);
  }

  lemma SlotTraced(strata: set<Inode>, xs: seq<Op>)
    requires xs != [] && Traced(strata, xs[..|xs| - 1])
    ensures
      var s := Execute(strata, xs);
      s.slot.Some? ==> HasBegun(strata, xs, |xs|, s.slot.value.inode, s.slot.value.op)
  {
    var ys, x := xs[..|xs| - 1], xs[|xs| - 1];
    var s, r := Execute(strata, ys), Execute(strata, xs);
    if r.slot.Some? {
      if s.slot.None? {
        assert xs[|ys| + 1..|xs|] == [];
        assert BegunBy(strata, xs, |ys|, |xs|, r.slot.value.inode, r.slot.value.op);
      } else {
        var b: nat :| BegunBy(strata, ys, b, |ys|, s.slot.value.inode, s.slot.value.op);
        assert ys[..b] == xs[..b] && ys[b + 1..|ys|] == ys[b + 1..] && xs[b + 1..|xs|] == xs[b + 1..];
        WhereNext(xs, b, s.slot.value.inode);
        assert BegunBy(strata, xs, b, |xs|, r.slot.value.inode, r.slot.value.op);
      }
    }
  }

  lemma WhereNext(xs: seq<Op>, b: nat, inode: Inode)
    requires b + 1 < |xs| && xs[b].Begin? && inode == Where(xs[b].inode, xs[..|xs| - 1][b + 1..])
    ensures
      var x := xs[|xs| - 1];
      Where(xs[b].inode, xs[b + 1..]) == if x.Rebind? && x.outer == inode then x.provider else inode
  {
    var ys := xs[b + 1..];
    assert ys[..|ys| - 1] == xs[..|xs| - 1][b + 1..];
  }

  lemma UsesTraced(strata: set<Inode>, xs: seq<Op>, i: nat)
    requires xs != [] && Traced(strata, xs[..|xs| - 1]) && i < |Execute(strata, xs).uses|
    ensures UseTraced(strata, xs, Execute(strata, xs).uses[i])
  {
    hide HasBegun;
    var ys := xs[..|xs| - 1];
    var s, u := Execute(strata, ys), Execute(strata, xs).uses[i];
    if i < |s.uses| {
      assert UseTraced(strata, ys, s.uses[i]);
      UseStaysTraced(strata, xs, u);
    } else {
      BegunGrows(strata, xs, |ys|, u.inode, u.op);
      assert AskedAt(strata, xs, |ys|, u.inode, u.op);
    }
  }

  lemma UseStaysTraced(strata: set<Inode>, xs: seq<Op>, u: Use)
    requires xs != [] && UseTraced(strata, xs[..|xs| - 1], u)
    ensures UseTraced(strata, xs, u)
  {
    hide HasBegun;
    var k: nat :| AskedAt(strata, xs[..|xs| - 1], k, u.inode, u.op);
    BegunGrows(strata, xs, k, u.inode, u.op);
    assert AskedAt(strata, xs, k, u.inode, u.op);
  }

  lemma PeeksTraced(strata: set<Inode>, xs: seq<Op>, i: nat)
    requires xs != [] && Traced(strata, xs[..|xs| - 1]) && i < |Execute(strata, xs).peeks|
    ensures PeekTraced(strata, xs, Execute(strata, xs).peeks[i])
  {
    hide HasBegun;
    var ys := xs[..|xs| - 1];
    var s, p := Execute(strata, ys), Execute(strata, xs).peeks[i];
    if i < |s.peeks| {
      assert PeekTraced(strata, ys, s.peeks[i]);
      PeekStaysTraced(strata, xs, p);
    } else {
      BegunGrows(strata, xs, |ys|, p.inode, FileattrSet);
      assert PeekedAt(strata, xs, |ys|, p.inode);
    }
  }

  lemma PeekStaysTraced(strata: set<Inode>, xs: seq<Op>, p: Peek)
    requires xs != [] && PeekTraced(strata, xs[..|xs| - 1], p)
    ensures PeekTraced(strata, xs, p)
  {
    hide HasBegun;
    var k: nat :| PeekedAt(strata, xs[..|xs| - 1], k, p.inode);
    BegunGrows(strata, xs, k, p.inode, FileattrSet);
    assert PeekedAt(strata, xs, k, p.inode);
  }

  /** Over every run each hook that was let through, and each look, is a call on the very
      inode and of the very class that an earlier call began a decision for, wherever
      the rebindings between the two took it. */
  lemma {:induction false} AlwaysTraced(strata: set<Inode>, xs: seq<Op>)
    ensures Traced(strata, xs)
  {
    hide Do;
    hide HasBegun;
    hide UseTraced;
    hide PeekTraced;
    if xs != [] {
      AlwaysTraced(strata, xs[..|xs| - 1]);
      SlotTraced(strata, xs);
      var s := Execute(strata, xs);
      forall i | 0 <= i < |s.uses| ensures UseTraced(strata, xs, s.uses[i]) {
        UsesTraced(strata, xs, i);
      }
      forall i | 0 <= i < |s.peeks| ensures PeekTraced(strata, xs, s.peeks[i]) {
        PeeksTraced(strata, xs, i);
      }
    }
  }

  /** And a decision works: begun in a free slot and rebound any number of times, it lets
      the next hook through exactly if that is of its class and on the inode it has come
      to; it then stays for the providers beneath exactly on StrataFS, and a hook that
      is refused ends it. */
  lemma BegunDecisionAdmitsExactly(strata: set<Inode>, xs: seq<Op>, inode: Inode, op: OpClass, ys: seq<Op>,
                                   target: Option<Inode>, asked: OpClass)
    requires Execute(strata, xs).slot.None? && !op.NoClass?
    requires forall i :: 0 <= i < |ys| ==> ys[i].Rebind?
    ensures
      var s := Continue(Do(Execute(strata, xs), strata, Begin(inode, op)), strata, ys);
      var r := Do(s, strata, Consume(target, asked));
      && (|r.uses| == |s.uses| + 1 <==> target == Some(Where(inode, ys)) && asked == op)
      && (|r.uses| != |s.uses| + 1 ==> r.uses == s.uses)
      && (r.slot.Some? <==> target == Some(Where(inode, ys)) && asked == op && Where(inode, ys) in strata)
  {
    ReboundDecision(Do(Execute(strata, xs), strata, Begin(inode, op)), strata, inode, op, ys);
  }

  lemma {:induction false} ReboundDecision(s: State, strata: set<Inode>, inode: Inode, op: OpClass, ys: seq<Op>)
    requires s.slot.Some? && s.slot.value.inode == inode && s.slot.value.op == op
    requires forall i :: 0 <= i < |ys| ==> ys[i].Rebind?
    ensures
      var r := Continue(s, strata, ys);
      r.slot.Some? && r.slot.value.inode == Where(inode, ys) && r.slot.value.op == op && r.uses == s.uses
  {
    if ys != [] {
      ReboundDecision(s, strata, inode, op, ys[..|ys| - 1]);
    }
  }
}
