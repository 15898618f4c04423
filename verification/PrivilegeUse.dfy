/** Privilege-use records: a process records each gate once while it stays under one
    token, the claim is carried by one task until its task work writes the record, and
    the write names every (gate, privilege) pair exactly once.  A token that comes back
    after another one is recorded again. */
module PrivilegeUse {
  import opened Widths

  type Guid = nat
  type Gate = nat

  /** A token reference; the GUID is the token's own. */
  datatype Token = Token(id: nat, guid: Guid)

  /** A task inside a note has claimed a gate and not yet queued or returned it. */
  datatype Pc = Calm | InHand(gate: Gate, token: Token)

  datatype Task = Task(token: Option<Token>, pending: set<Gate>, pc: Pc)

  /** What one record is about. */
  datatype Claim = Claim(guid: Guid, gate: Gate)

  /** `drained` and `released` are history. */
  datatype State = State(
    guid: Guid,
    seen: set<Gate>,
    tasks: seq<Task>,
    drained: seq<Claim>,
    released: seq<Claim>)

  datatype Finish = Queued | CloneFailed | Exiting

  datatype Action =
    | Note(t: nat, token: Token, gate: Gate)
    | EndNote(t: nat, finish: Finish)
    | Drain(t: nat)
    | Release(t: nat)

  function SetTask(s: State, t: nat, task: Task): State
    requires t < |s.tasks|
  {
    s.(tasks := s.tasks[t := task])
  }

  /** The dedup under the process lock: another token starts afresh. */
  function Rekeyed(s: State, guid: Guid): State {
    if s.guid == guid then s else s.(guid := guid, seen := {})
  }

  function Unclaim(s: State, guid: Guid, gate: Gate): State {
    if s.guid == guid then s.(seen := s.seen - {gate}) else s
  }

  function Bit(b: bool): nat {
    if b then 1 else 0
  }

  /** The claims of a task's pending set in some order, each once. */
  ghost function ListOf(guid: Guid, gates: set<Gate>): (log: seq<Claim>)
    ensures forall k :: multiset(log)[k] == Bit(k.guid == guid && k.gate in gates)
  {
    if gates == {} then []
    else
      var g :| g in gates;
      [Claim(guid, g)] + ListOf(guid, gates - {g})
  }

  /** A task can note a use under `token` when no other token waits for its work. */
  predicate Able(s: State, t: nat, token: Token) {
    t < |s.tasks| && s.tasks[t].pc.Calm? && (s.tasks[t].token.None? || s.tasks[t].token == Some(token))
  }

  ghost function Step(s: State, x: Action): State {
    if x.t >= |s.tasks| then s
    else
      var task := s.tasks[x.t];
      match x
      case Note(t, token, gate) =>
        if !Able(s, t, token) then s
        else
          var r := Rekeyed(s, token.guid);
          if gate in r.seen then r
          else SetTask(r.(seen := r.seen + {gate}), t, task.(pc := InHand(gate, token)))
      case EndNote(t, finish) =>
        if !task.pc.InHand? then s
        else if task.token.Some? || finish.Queued? then
          SetTask(s, t, Task(Some(task.pc.token), task.pending + {task.pc.gate}, Calm))
        else SetTask(Unclaim(s, task.pc.token.guid, task.pc.gate), t, task.(pc := Calm))
      case Drain(t) =>
        if !task.pc.Calm? then s
        else
          var r := SetTask(s, t, Task(None, {}, Calm));
          if task.token.None? then r else r.(drained := r.drained + ListOf(task.token.value.guid, task.pending))
      case Release(t) =>
        if !task.pc.Calm? || task.token.None? then s
        else SetTask(s, t, Task(None, {}, Calm)).(released := s.released + ListOf(task.token.value.guid, task.pending))
  }

  function Init(n: nat): State {
    State(0, {}, seq(n, i => Task(None, {}, Calm)), [], [])
  }

  ghost function Execute(n: nat, xs: seq<Action>): State {
    if xs == [] then Init(n) else Step(Execute(n, xs[..|xs| - 1]), xs[|xs| - 1])
  }

  // ----- the stretch of a token -----

  /** Where a run stands with one GUID: not noted yet, noted last, noted and then
      another one, or noted again after another one. */
  datatype Stage = Before | During | After | Back

  predicate Reaches(s: State, x: Action) {
    x.Note? && Able(s, x.t, x.token)
  }

  function NextStage(stage: Stage, same: bool): Stage {
    match stage
    case Before => if same then During else Before
    case During => if same then During else After
    case After => if same then Back else After
    case Back => Back
  }

  ghost function StageOf(n: nat, xs: seq<Action>, guid: Guid): Stage {
    if xs == [] then Before
    else
      var s, x, stage := Execute(n, xs[..|xs| - 1]), xs[|xs| - 1], StageOf(n, xs[..|xs| - 1], guid);
      if Reaches(s, x) then NextStage(stage, x.token.guid == guid) else stage
  }

  // ----- where a claim is -----

  /** How many claims `k` a task carries, queued or in hand. */
  function Carries(task: Task, k: Claim): nat {
    Bit(task.token.Some? && task.token.value.guid == k.guid && k.gate in task.pending) +
    Bit(task.pc.InHand? && task.pc.token.guid == k.guid && task.pc.gate == k.gate)
  }

  function Carried(tasks: seq<Task>, k: Claim): nat {
    if tasks == [] then 0 else Carries(tasks[0], k) + Carried(tasks[1..], k)
  }

  /** How many claims `k` stand: with a task, drained, or released. */
  ghost function Places(s: State, k: Claim): nat {
    Carried(s.tasks, k) + multiset(s.drained)[k] + multiset(s.released)[k]
  }

  /** Pending gates wait under a token, and a claim in hand is under the same one. */
  predicate TasksFit(tasks: seq<Task>) {
    forall t :: 0 <= t < |tasks| ==>
      && (tasks[t].pending != {} ==> tasks[t].token.Some?)
      && (tasks[t].pc.InHand? && tasks[t].token.Some? ==> tasks[t].token.value == tasks[t].pc.token)
  }

  /** While a GUID is noted, its standing claims are exactly the gates seen, one place
      each; before, there are none; after, still at most one each. */
  ghost predicate Accounted(s: State, guid: Guid, stage: Stage) {
    && TasksFit(s.tasks)
    && match stage
       case Before => (forall g :: Places(s, Claim(guid, g)) == 0) && (s.guid == guid ==> s.seen == {})
       case During => s.guid == guid && forall g :: Places(s, Claim(guid, g)) == Bit(g in s.seen)
       case After => s.guid != guid && forall g :: Places(s, Claim(guid, g)) <= 1
       case Back => true
  }

  lemma {:induction false} CarriedUpdate(tasks: seq<Task>, t: nat, task: Task, k: Claim)
    requires t < |tasks|
    ensures Carried(tasks[t := task], k) + Carries(tasks[t], k) == Carried(tasks, k) + Carries(task, k)
  {
    hide Carries;
    if t == 0 {
      assert tasks[t := task][1..] == tasks[1..];
    } else {
      assert tasks[t := task][1..] == tasks[1..][t - 1 := task];
      CarriedUpdate(tasks[1..], t - 1, task, k);
    }
  }

  lemma {:induction false} CarriedAtLeast(tasks: seq<Task>, t: nat, k: Claim)
    requires t < |tasks|
    ensures Carried(tasks, k) >= Carries(tasks[t], k)
  {
    if t > 0 {
      CarriedAtLeast(tasks[1..], t - 1, k);
    }
  }

  lemma {:induction false} NothingCarried(tasks: seq<Task>, k: Claim)
    requires forall t :: 0 <= t < |tasks| ==> tasks[t] == Task(None, {}, Calm)
    ensures Carried(tasks, k) == 0
  {
    if tasks != [] {
      NothingCarried(tasks[1..], k);
    }
  }

  /** A note that reaches the dedup adds one place to its own claim if it is the first
      since the process was keyed, and changes no other. */
  lemma NotePlaces(s: State, x: Action, k: Claim)
    requires Reaches(s, x)
    ensures
      var mine := k == Claim(x.token.guid, x.gate) && !(s.guid == x.token.guid && x.gate in s.seen);
      Places(Step(s, x), k) == Places(s, k) + Bit(mine)
  {
    var r := Step(s, x);
    CarriedUpdate(s.tasks, x.t, r.tasks[x.t], k);
    assert s.tasks[x.t := s.tasks[x.t]] == s.tasks;
  }

  lemma NoteAccounted(s: State, x: Action, guid: Guid, stage: Stage)
    requires Reaches(s, x) && Accounted(s, guid, stage)
    ensures Accounted(Step(s, x), guid, NextStage(stage, x.token.guid == guid))
  {
    var r := Step(s, x);
    forall g ensures Places(r, Claim(guid, g)) == Places(s, Claim(guid, g)) +
                     Bit(x.token.guid == guid && x.gate == g && !(s.guid == guid && g in s.seen))
    {
      NotePlaces(s, x, Claim(guid, g));
    }
    hide Places;
  }

  lemma EndNotePlaces(s: State, x: Action, k: Claim)
    requires x.EndNote? && x.t < |s.tasks| && s.tasks[x.t].pc.InHand? && TasksFit(s.tasks) && Places(s, k) <= 1
    ensures
      var task := s.tasks[x.t];
      var mine := k == Claim(task.pc.token.guid, task.pc.gate);
      && (mine ==> Places(s, k) == 1)
      && Places(Step(s, x), k) == Places(s, k) - Bit(mine && task.token.None? && !x.finish.Queued?)
  {
    CarriedAtLeast(s.tasks, x.t, k);
    CarriedUpdate(s.tasks, x.t, Step(s, x).tasks[x.t], k);
  }

  lemma EndNoteAccounted(s: State, x: Action, guid: Guid, stage: Stage)
    requires x.EndNote? && Accounted(s, guid, stage) && x.t < |s.tasks|
    ensures Accounted(Step(s, x), guid, stage)
  {
    var r := Step(s, x);
    if s.tasks[x.t].pc.InHand? && !stage.Back? {
      var mine := Claim(s.tasks[x.t].pc.token.guid, s.tasks[x.t].pc.gate);
      var undone := s.tasks[x.t].token.None? && !x.finish.Queued?;
      forall g
        ensures
          && (Claim(guid, g) == mine ==> Places(s, Claim(guid, g)) == 1)
          && Places(r, Claim(guid, g)) == Places(s, Claim(guid, g)) - Bit(Claim(guid, g) == mine && undone)
      {
        assert Places(s, Claim(guid, g)) <= 1;
        EndNotePlaces(s, x, Claim(guid, g));
      }
      hide Places;
    }
  }

  lemma Appended(log: seq<Claim>, guid: Guid, gates: set<Gate>, k: Claim)
    ensures multiset(log + ListOf(guid, gates))[k] == multiset(log)[k] + Bit(k.guid == guid && k.gate in gates)
  {
    assert multiset(log + ListOf(guid, gates)) == multiset(log) + multiset(ListOf(guid, gates));
  }

  /** A claim that leaves a task's queue arrives in one of the logs. */
  lemma EmptiedPlace(tasks: seq<Task>, t: nat, log: seq<Claim>, k: Claim)
    requires t < |tasks| && tasks[t].pc.Calm? && tasks[t].token.Some?
    ensures Carried(tasks[t := Task(None, {}, Calm)], k) +
            multiset(log + ListOf(tasks[t].token.value.guid, tasks[t].pending))[k] ==
            Carried(tasks, k) + multiset(log)[k]
  {
    CarriedUpdate(tasks, t, Task(None, {}, Calm), k);
    Appended(log, tasks[t].token.value.guid, tasks[t].pending, k);
  }

  lemma MovedClaims(s: State, r: State, t: nat, guid: Guid, stage: Stage)
    requires Accounted(s, guid, stage) && t < |s.tasks|
    requires r.guid == s.guid && r.seen == s.seen && r.tasks == s.tasks[t := Task(None, {}, Calm)]
    requires forall k :: Places(r, k) == Places(s, k)
    ensures Accounted(r, guid, stage)
  {
    hide Places;
  }

  lemma DrainAccounted(s: State, t: nat, guid: Guid, stage: Stage)
    requires Accounted(s, guid, stage) && t < |s.tasks|
    ensures Accounted(Step(s, Drain(t)), guid, stage)
  {
    hide Accounted;
    hide Carried;
    var r, task := Step(s, Drain(t)), s.tasks[t];
    if task.pc.Calm? && task.token.Some? {
      forall k ensures Places(r, k) == Places(s, k) {
        EmptiedPlace(s.tasks, t, s.drained, k);
      }
      MovedClaims(s, r, t, guid, stage);
    } else if task.pc.Calm? {
      NothingPending(s, t, guid, stage);
    }
  }

  lemma ReleaseAccounted(s: State, t: nat, guid: Guid, stage: Stage)
    requires Accounted(s, guid, stage) && t < |s.tasks|
    ensures Accounted(Step(s, Release(t)), guid, stage)
  {
    hide Accounted;
    hide Carried;
    var r, task := Step(s, Release(t)), s.tasks[t];
    if task.pc.Calm? && task.token.Some? {
      forall k ensures Places(r, k) == Places(s, k) {
        EmptiedPlace(s.tasks, t, s.released, k);
      }
      MovedClaims(s, r, t, guid, stage);
    }
  }

  lemma NothingPending(s: State, t: nat, guid: Guid, stage: Stage)
    requires Accounted(s, guid, stage) && t < |s.tasks| && s.tasks[t].token.None? && s.tasks[t].pc.Calm?
    ensures SetTask(s, t, Task(None, {}, Calm)) == s
  {
    assert s.tasks[t].pending == {};
    assert s.tasks[t := Task(None, {}, Calm)] == s.tasks;
  }

  lemma StepAccounted(s: State, x: Action, guid: Guid, stage: Stage)
    requires Accounted(s, guid, stage)
    ensures Accounted(Step(s, x), guid, if Reaches(s, x) then NextStage(stage, x.token.guid == guid) else stage)
  {
    hide Accounted;
    if x.t < |s.tasks| {
      match x {
        case Note(_, _, _) =>
          if Reaches(s, x) {
            NoteAccounted(s, x, guid, stage);
          }
        case EndNote(_, _) => EndNoteAccounted(s, x, guid, stage);
        case Drain(t) => DrainAccounted(s, t, guid, stage);
        case Release(t) => ReleaseAccounted(s, t, guid, stage);
      }
    }
  }

  /** Over every run, for every GUID that does not come back: each of its standing claims
      is carried by exactly one task until it is drained or released, once; and while the
      GUID is noted, the gates seen are exactly its standing claims. */
  lemma {:induction false} ClaimsAreAccounted(n: nat, xs: seq<Action>, guid: Guid)
    ensures Accounted(Execute(n, xs), guid, StageOf(n, xs, guid))
  {
    hide Step;
    if xs == [] {
      forall g ensures Places(Init(n), Claim(guid, g)) == 0 {
        NothingCarried(Init(n).tasks, Claim(guid, g));
      }
    } else {
      hide Accounted;
      ClaimsAreAccounted(n, xs[..|xs| - 1], guid);
      StepAccounted(Execute(n, xs[..|xs| - 1]), xs[|xs| - 1], guid, StageOf(n, xs[..|xs| - 1], guid));
    }
  }

  /** So under a GUID that does not come back no gate is recorded twice, whatever other
      tokens the process used before and after ... */
  lemma RecordedOnce(n: nat, xs: seq<Action>, k: Claim)
    requires !StageOf(n, xs, k.guid).Back?
    ensures multiset(Execute(n, xs).drained)[k] <= 1
  {
    ClaimsAreAccounted(n, xs, k.guid);
    assert Places(Execute(n, xs), Claim(k.guid, k.gate)) <= 1;
  }

  /** ... and two tasks never wait to record the same one. */
  lemma CarriedOnce(n: nat, xs: seq<Action>, k: Claim, t: nat, u: nat)
    requires !StageOf(n, xs, k.guid).Back? && t < u < |Execute(n, xs).tasks|
    ensures
      var s := Execute(n, xs);
      && Carries(s.tasks[t], k) + Carries(s.tasks[u], k) <= 1
      && (Carries(s.tasks[t], k) + Carries(s.tasks[u], k) == 1 ==> k !in s.drained && k !in s.released)
  {
    ClaimsAreAccounted(n, xs, k.guid);
    var s := Execute(n, xs);
    assert Places(s, Claim(k.guid, k.gate)) <= 1;
    TwoCarry(s.tasks, t, u, k);
    assert k in s.drained ==> multiset(s.drained)[k] > 0;
    assert k in s.released ==> multiset(s.released)[k] > 0;
  }

  lemma {:induction false} TwoCarry(tasks: seq<Task>, t: nat, u: nat, k: Claim)
    requires t < u < |tasks|
    ensures Carried(tasks, k) >= Carries(tasks[t], k) + Carries(tasks[u], k)
  {
    if t == 0 {
      CarriedAtLeast(tasks[1..], u - 1, k);
    } else {
      TwoCarry(tasks[1..], t - 1, u - 1, k);
    }
  }

  // ----- when a gate is claimed again -----

  /** The step claims `k`. */
  predicate ClaimsNow(s: State, x: Action, k: Claim) {
    Reaches(s, x) && Claim(x.token.guid, x.gate) == k && !(s.guid == k.guid && k.gate in s.seen)
  }

  /** A note in hand for `k` fails and takes its claim back. */
  predicate FailsNote(s: State, x: Action, k: Claim) {
    && x.EndNote? && x.t < |s.tasks| && s.tasks[x.t].pc.InHand?
    && Claim(s.tasks[x.t].pc.token.guid, s.tasks[x.t].pc.gate) == k
    && s.tasks[x.t].token.None? && !x.finish.Queued?
  }

  /** What lets `k` be claimed again: a note under another GUID, or a failing note of
      the same gate and GUID, whoever made it. */
  predicate Reopens(s: State, x: Action, k: Claim) {
    (Reaches(s, x) && x.token.guid != k.guid) || FailsNote(s, x, k)
  }

  /** Step `i` is the last that claimed `k`. */
  ghost predicate LastClaim(n: nat, xs: seq<Action>, i: nat, k: Claim) {
    && i < |xs| && ClaimsNow(Execute(n, xs[..i]), xs[i], k)
    && forall j :: i < j < |xs| ==> !ClaimsNow(Execute(n, xs[..j]), xs[j], k)
  }

  ghost predicate ReopenedSince(n: nat, xs: seq<Action>, i: nat, k: Claim) {
    exists j :: i < j < |xs| && Reopens(Execute(n, xs[..j]), xs[j], k)
  }

  lemma SeenAfter(s: State, x: Action, k: Claim)
    requires !ClaimsNow(s, x, k)
    ensures
      var r := Step(s, x);
      r.guid == k.guid && k.gate in r.seen <==> s.guid == k.guid && k.gate in s.seen && !Reopens(s, x, k)
  {}

  lemma LastClaimPrefix(n: nat, xs: seq<Action>, i: nat, k: Claim)
    requires LastClaim(n, xs, i, k) && i < |xs| - 1
    ensures LastClaim(n, xs[..|xs| - 1], i, k)
    ensures !ClaimsNow(Execute(n, xs[..|xs| - 1]), xs[|xs| - 1], k)
  {
    hide Execute;
    hide ClaimsNow;
    var ys := xs[..|xs| - 1];
    assert ys[..i] == xs[..i];
    forall j | i < j < |ys| ensures !ClaimsNow(Execute(n, ys[..j]), ys[j], k) {
      assert ys[..j] == xs[..j];
    }
  }

  lemma ReopenedGrows(n: nat, xs: seq<Action>, i: nat, k: Claim)
    requires i < |xs| - 1
    ensures
      var ys := xs[..|xs| - 1];
      ReopenedSince(n, xs, i, k) <==> ReopenedSince(n, ys, i, k) || Reopens(Execute(n, ys), xs[|ys|], k)
  {
    hide Execute;
    hide Reopens;
    var ys := xs[..|xs| - 1];
    assert xs[..|ys|] == ys;
    forall j | i < j < |ys| ensures Reopens(Execute(n, ys[..j]), ys[j], k) == Reopens(Execute(n, xs[..j]), xs[j], k) {
      assert ys[..j] == xs[..j];
    }
  }

  lemma {:induction false} SeenSince(n: nat, xs: seq<Action>, i: nat, k: Claim)
    requires LastClaim(n, xs, i, k)
    ensures
      var s := Execute(n, xs);
      s.guid == k.guid && k.gate in s.seen <==> !ReopenedSince(n, xs, i, k)
    decreases |xs|
  {
    hide Step;
    hide ClaimsNow;
    hide Reopens;
    var ys, x := xs[..|xs| - 1], xs[|xs| - 1];
    if i == |ys| {
      assert xs[..i] == ys;
      ClaimSeen(Execute(n, ys), x, k);
    } else {
      LastClaimPrefix(n, xs, i, k);
      ReopenedGrows(n, xs, i, k);
      hide LastClaim;
      hide ReopenedSince;
      SeenSince(n, ys, i, k);
      SeenAfter(Execute(n, ys), x, k);
    }
  }

  lemma ClaimSeen(s: State, x: Action, k: Claim)
    requires ClaimsNow(s, x, k)
    ensures Step(s, x).guid == k.guid && k.gate in Step(s, x).seen
  {}

  /** Over every run, for a gate claimed before: the next note of it under the same GUID
      claims it again if and only if since that claim a note under another GUID was made
      or a note of the same gate and GUID failed; the claims that stand then grow by one. */
  lemma ClaimedAgainIff(n: nat, xs: seq<Action>, i: nat, t: nat, token: Token, gate: Gate)
    requires LastClaim(n, xs, i, Claim(token.guid, gate)) && Able(Execute(n, xs), t, token)
    ensures
      var s, k := Execute(n, xs), Claim(token.guid, gate);
      && (ClaimsNow(s, Note(t, token, gate), k) <==> ReopenedSince(n, xs, i, k))
      && Places(Step(s, Note(t, token, gate)), k) == Places(s, k) + Bit(ReopenedSince(n, xs, i, k))
  {
    SeenSince(n, xs, i, Claim(token.guid, gate));
    NotePlaces(Execute(n, xs), Note(t, token, gate), Claim(token.guid, gate));
    hide Step;
    hide Execute;
    hide LastClaim;
    hide ReopenedSince;
    hide Places;
  }

  /** While the GUID has not come back the second reason cannot concern a claim that
      still stands: it is claimed again exactly when a note under another GUID lies
      between. */
  lemma StandingClaimedAgainIff(n: nat, xs: seq<Action>, t: nat, token: Token, gate: Gate)
    requires
      var s := Execute(n, xs);
      Able(s, t, token) && Places(s, Claim(token.guid, gate)) == 1 && !StageOf(n, xs, token.guid).Back?
    ensures
      var s, k := Execute(n, xs), Claim(token.guid, gate);
      Places(Step(s, Note(t, token, gate)), k) == 2 <==> StageOf(n, xs, token.guid).After?
  {
    ClaimsAreAccounted(n, xs, token.guid);
    NotePlaces(Execute(n, xs), Note(t, token, gate), Claim(token.guid, gate));
  }

  /** And it is then recorded again: noting the use, queueing it and draining it writes
      one more record exactly in that case, over every run. */
  lemma RecordedAgainIff(n: nat, xs: seq<Action>, i: nat, t: nat, token: Token, gate: Gate)
    requires LastClaim(n, xs, i, Claim(token.guid, gate))
    requires var s := Execute(n, xs); t < |s.tasks| && s.tasks[t] == Task(None, {}, Calm)
    ensures
      var k, ys := Claim(token.guid, gate), [Note(t, token, gate), EndNote(t, Queued), Drain(t)];
      multiset(Execute(n, xs + ys).drained)[k] ==
      multiset(Execute(n, xs).drained)[k] + Bit(ReopenedSince(n, xs, i, k))
  {
    SeenSince(n, xs, i, Claim(token.guid, gate));
    ThreeMore(n, xs, Note(t, token, gate), EndNote(t, Queued), Drain(t));
    NoteAndDrain(Execute(n, xs), t, token, gate);
    hide Step;
    hide Execute;
    hide LastClaim;
    hide ReopenedSince;
  }

  lemma NoteAndDrain(s: State, t: nat, token: Token, gate: Gate)
    requires t < |s.tasks| && s.tasks[t] == Task(None, {}, Calm)
    ensures
      var r := Step(Step(Step(s, Note(t, token, gate)), EndNote(t, Queued)), Drain(t));
      var k := Claim(token.guid, gate);
      multiset(r.drained)[k] == multiset(s.drained)[k] + Bit(!(s.guid == token.guid && gate in s.seen))
  {
    var s1 := Step(s, Note(t, token, gate));
    var s2 := Step(s1, EndNote(t, Queued));
    if !(s.guid == token.guid && gate in s.seen) {
      assert s1.tasks[t] == Task(None, {}, InHand(gate, token));
      assert s2.tasks[t] == Task(Some(token), {} + {gate}, Calm);
      Appended(s2.drained, token.guid, s2.tasks[t].pending, Claim(token.guid, gate));
    }
  }

  lemma ThreeMore(n: nat, xs: seq<Action>, a: Action, b: Action, c: Action)
    ensures Execute(n, xs + [a, b, c]) == Step(Step(Step(Execute(n, xs), a), b), c)
  {
    hide Step;
    assert (xs + [a, b, c])[..|xs| + 2] == xs + [a, b];
    assert (xs + [a, b])[..|xs| + 1] == xs + [a];
    assert (xs + [a])[..|xs|] == xs;
    assert Execute(n, xs + [a]) == Step(Execute(n, xs), a);
    assert Execute(n, xs + [a, b]) == Step(Execute(n, xs + [a]), b);
  }

  /** The shortest such run: one task records gate 5 under GUID 1, gate 6 under GUID 2,
      and gate 5 under GUID 1 a second time. */
  lemma ReturningTokenRecordsTwice()
    ensures
      var a, b := Token(1, 1), Token(2, 2);
      var first := [Note(0, a, 5), EndNote(0, Queued), Drain(0)];
      var other := [Note(0, b, 6), EndNote(0, Queued), Drain(0)];
      multiset(Execute(1, first + other + first).drained)[Claim(1, 5)] == 2
  {
    var a, b := Token(1, 1), Token(2, 2);
    var first := [Note(0, a, 5), EndNote(0, Queued), Drain(0)];
    var other := [Note(0, b, 6), EndNote(0, Queued), Drain(0)];
    assert [] + first == first;
    ThreeMore(1, [], first[0], first[1], first[2]);
    Recorded(Init(1), a, 5);
    ThreeMore(1, first, other[0], other[1], other[2]);
    Recorded(Execute(1, first), b, 6);
    ThreeMore(1, first + other, first[0], first[1], first[2]);
    Recorded(Execute(1, first + other), a, 5);
  }

  lemma Recorded(s: State, token: Token, gate: Gate)
    requires s.tasks == [Task(None, {}, Calm)] && s.guid != token.guid
    ensures
      var r := Step(Step(Step(s, Note(0, token, gate)), EndNote(0, Queued)), Drain(0));
      && r.tasks == [Task(None, {}, Calm)] && r.guid == token.guid
      && forall k :: multiset(r.drained)[k] == multiset(s.drained)[k] + Bit(k == Claim(token.guid, gate))
  {
    var s1 := Step(s, Note(0, token, gate));
    assert s1.tasks == [Task(None, {}, InHand(gate, token))];
    var s2 := Step(s1, EndNote(0, Queued));
    assert s2.tasks == [Task(Some(token), {} + {gate}, Calm)];
    forall k ensures multiset(s2.drained + ListOf(token.guid, {} + {gate}))[k] ==
                     multiset(s.drained)[k] + Bit(k == Claim(token.guid, gate))
    {
      Appended(s2.drained, token.guid, {} + {gate}, k);
    }
  }

  /** Once a GUID has come back, another GUID need not lie between two standing claims: a
      note that was still in hand from the first stretch and then fails takes back the
      claim of the second.  Tasks 2 and 3 both wait to record gate 5 under GUID 1. */
  lemma StrayUnclaim()
    ensures
      var a, b := Token(1, 1), Token(2, 2);
      var s3 := Step(Step(Step(Init(4), Note(0, a, 5)), Note(1, b, 6)), Note(2, a, 5));
      var s5 := Step(Step(s3, EndNote(0, CloneFailed)), Note(3, a, 5));
      |s5.tasks| == 4 && Carries(s5.tasks[2], Claim(1, 5)) == 1 && Carries(s5.tasks[3], Claim(1, 5)) == 1
  {
    var a, b, idle := Token(1, 1), Token(2, 2), Task(None, {}, Calm);
    var s1 := Step(Init(4), Note(0, a, 5));
    assert s1.tasks == [Task(None, {}, InHand(5, a)), idle, idle, idle] && s1.guid == 1;
    var s2 := Step(s1, Note(1, b, 6));
    assert s2.tasks == [Task(None, {}, InHand(5, a)), Task(None, {}, InHand(6, b)), idle, idle] && s2.guid == 2;
    var s3 := Step(s2, Note(2, a, 5));
    assert s3.tasks[2] == Task(None, {}, InHand(5, a)) && s3.tasks[3] == idle && s3.guid == 1 &&
           s3.tasks[0] == s2.tasks[0];
    var s4 := Step(s3, EndNote(0, CloneFailed));
    assert 5 !in s4.seen && s4.guid == 1 && s4.tasks[2] == s3.tasks[2] && s4.tasks[3] == idle;
  }

  // ----- the process and task fields -----

  /** The per-process dedup, kept under its own lock. */
  class ProcessState {
    var guid: Guid
    var seen: set<Gate>

    /** Whether this is the gate's first use under this token; claims it if asked. */
    method First(g: Guid, gate: Gate, claim: bool) returns (first: bool)
      modifies this
      ensures guid == g
      ensures first <==> !(old(guid) == g && gate in old(seen))
      ensures seen == (if old(guid) == g then old(seen) else {}) + (if first && claim then {gate} else {})
    {
      if guid != g {
        guid := g;
        seen := {};
      }
      first := gate !in seen;
      if first && claim {
        seen := seen + {gate};
      }
    }

    method Unclaim(g: Guid, gate: Gate)
      modifies this
      ensures guid == old(guid)
      ensures seen == if old(guid) == g then old(seen) - {gate} else old(seen)
    {
      if guid == g {
        seen := seen - {gate};
      }
    }
  }

  /** A task's side: the token it waits under and the gates it will record. */
  class TaskSecurity {
    var token: Option<Token>
    var pending: set<Gate>

    function View(pc: Pc): Task
      reads this
    {
      Task(token, pending, pc)
    }

    /** Notes a use without interruption; `finish` is how queueing the work ended. */
    method NotePrivilegeUse(p: ProcessState, t: Token, gate: Gate, finish: Finish) returns (queued: bool)
      modifies this, p
      ensures
        var tasks := [old(View(Calm))];
        var s := State(old(p.guid), old(p.seen), tasks, [], []);
        var r := Step(Step(s, Note(0, t, gate)), EndNote(0, finish));
        r.tasks == [View(Calm)] && p.guid == r.guid && p.seen == r.seen
      ensures queued <==>
                && (old(token) == Some(t) || (old(token).None? && finish.Queued?))
                && !(old(p.guid) == t.guid && gate in old(p.seen))
    {
      if token.Some? && token != Some(t) {
        return false;
      }
      var first := p.First(t.guid, gate, true);
      if !first {
        return false;
      }
      if token.None? {
        if !finish.Queued? {
          p.Unclaim(t.guid, gate);
          return false;
        }
        token := Some(t);
      }
      pending := pending + {gate};
      return true;
    }
  }

  // ----- the drain -----

  const BITS: nat := 64

  predicate Word(bits: set<nat>) {
    forall b :: b in bits ==> b < BITS
  }

  /** The lowest set bit. */
  method FindFirstSet(bits: set<nat>) returns (b: nat)
    requires Word(bits) && bits != {}
    ensures b in bits && forall c :: c in bits ==> b <= c
  {
    var some :| some in bits;
    b := 0;
    while b !in bits
      invariant b <= some && forall c :: c in bits ==> b <= c
      decreases BITS - b
    {
      b := b + 1;
    }
  }

  /** One record per privilege of one gate. */
  method EmitGate(gate: Gate, privileges: set<nat>) returns (out: seq<(Gate, nat)>)
    requires Word(privileges)
    ensures forall g, p :: multiset(out)[(g, p)] == Bit(g == gate && p in privileges)
  {
    out := [];
    var left := privileges;
    while left != {}
      invariant left <= privileges
      invariant forall g, p :: multiset(out)[(g, p)] == Bit(g == gate && p in privileges - left)
      decreases left
    {
      var one := FindFirstSet(left);
      left := left - {one};
      out := out + [(gate, one)];
    }
  }

  /** Task work: every pending gate with every privilege it spends, once each, and
      nothing else. */
  method DrainRecords(pending: set<Gate>, privileges: Gate -> set<nat>) returns (out: seq<(Gate, nat)>)
    requires Word(pending) && forall g :: Word(privileges(g))
    ensures forall g, p :: multiset(out)[(g, p)] == Bit(g in pending && p in privileges(g))
  {
    out := [];
    var left := pending;
    while left != {}
      invariant left <= pending
      invariant forall g, p :: multiset(out)[(g, p)] == Bit(g in pending - left && p in privileges(g))
      decreases left
    {
      var gate := FindFirstSet(left);
      left := left - {gate};
      var records := EmitGate(gate, privileges(gate));
      out := out + records;
    }
  }
}
