/**
 Every interleaving of source changes, removals and fetches over the registry of module SourceRegistry.
 An action is one critical section under `sourceMu`, one gate operation, or one effect of a fetch; an actor
 is a goroutine inside Activate, RemoveSource or fetchAndDispatchGeneration, with its phase as program counter.
 */
module SourceFence {
  import opened Options
  import opened SourceRegistry

  type ActorId = nat

  /** State of one read/write mutex. */
  datatype Lock = Lock(readers: set<ActorId>, writer: Option<ActorId>)

  /** The arguments one scheduled or triggered fetch was started with. */
  datatype Fetch = Fetch(name: string, source: SourceId, generation: nat)

  datatype Phase =
    | Idle
    | AwaitingWrite(change: Change)
    | WriteLocked(change: Change)
    | WriteUnlocking(change: Change)
    | Fetching(fetch: Fetch)
    | Checked(fetch: Fetch)
    | AwaitingRead(fetch: Fetch, gate: GateId)
    | ReadLocked(fetch: Fetch, gate: GateId)
    | InEffects(fetch: Fetch, gate: GateId)
    | ReadUnlocking(fetch: Fetch, gate: GateId)
    | Resting(fetch: Fetch)

  datatype Event = Committed(change: Change) | Effect(fetch: Fetch)

  datatype State = State(
    registry: Registry,
    prepared: set<Change>,
    locks: map<GateId, Lock>,
    phases: map<ActorId, Phase>,
    log: seq<Event>)
  {
    function LockOf(g: GateId): Lock {
      if g in locks then locks[g] else Lock({}, None)
    }

    function PhaseOf(a: ActorId): Phase {
      if a in phases then phases[a] else Idle
    }

    function Goto(a: ActorId, phase: Phase): State {
      this.(phases := phases[a := phase])
    }
  }

  datatype Action =
    | Prepare(name: string, next: Option<(SourceId, SourceInfo)>)
    | FirstCheck(actor: ActorId, change: Change)
    | BeginRemoval(actor: ActorId, name: string)
    | LockWrite(actor: ActorId)
    | Commit(actor: ActorId)
    | Refuse(actor: ActorId)
    | UnlockWrite(actor: ActorId)
    | StartFetch(actor: ActorId, name: string)
    | CheckCurrent(actor: ActorId)
    | FindGate(actor: ActorId)
    | LockRead(actor: ActorId)
    | Recheck(actor: ActorId)
    | PerformEffect(actor: ActorId)
    | EndEffects(actor: ActorId)
    | UnlockRead(actor: ActorId)
    | FetchAgain(actor: ActorId)

  /** The constructor hands a prepared activation the info it installs, so both carry one name. */
  predicate Enabled(s: State, action: Action) {
    match action
    case Prepare(name, next) => next.Some? ==> next.value.1.name == name
    // Nothing stops two callers from activating one prepared change at once.
    case FirstCheck(a, change) => s.PhaseOf(a) == Idle && change in s.prepared && s.registry.Matches(change)
    case BeginRemoval(a, name) => s.PhaseOf(a) == Idle
    case LockWrite(a) => s.PhaseOf(a).AwaitingWrite? && s.LockOf(s.PhaseOf(a).change.gate) == Lock({}, None)
    case Commit(a) => s.PhaseOf(a).WriteLocked? && s.registry.Matches(s.PhaseOf(a).change)
    case Refuse(a) => s.PhaseOf(a).WriteLocked? && !s.registry.Matches(s.PhaseOf(a).change)
    case UnlockWrite(a) => s.PhaseOf(a).WriteUnlocking?
    case StartFetch(a, name) => s.PhaseOf(a) == Idle && name in s.registry.sources
    case CheckCurrent(a) => s.PhaseOf(a).Fetching?
    case FindGate(a) => s.PhaseOf(a).Checked?
    case LockRead(a) => s.PhaseOf(a).AwaitingRead? && s.LockOf(s.PhaseOf(a).gate).writer == None
    case Recheck(a) => s.PhaseOf(a).ReadLocked?
    case PerformEffect(a) => s.PhaseOf(a).InEffects?
    case EndEffects(a) => s.PhaseOf(a).InEffects?
    case UnlockRead(a) => s.PhaseOf(a).ReadUnlocking?
    case FetchAgain(a) => s.PhaseOf(a).Resting?
  }

  function Apply(s: State, action: Action): State
    requires Enabled(s, action)
  {
    match action
    case Prepare(name, next) =>
      var (registry, change) := SourceRegistry.Prepare(s.registry, name, next);
      s.(registry := registry, prepared := s.prepared + {change})
    case FirstCheck(a, change) => s.Goto(a, AwaitingWrite(change))
    case BeginRemoval(a, name) =>
      var (registry, change) := SnapshotForRemoval(s.registry, name);
      s.(registry := registry).Goto(a, AwaitingWrite(change))
    case LockWrite(a) =>
      var change := s.PhaseOf(a).change;
      s.(locks := s.locks[change.gate := Lock({}, Some(a))]).Goto(a, WriteLocked(change))
    case Commit(a) =>
      var change := s.PhaseOf(a).change;
      s.(registry := SourceRegistry.Commit(s.registry, change), log := s.log + [Committed(change)])
      .Goto(a, WriteUnlocking(change))
    case Refuse(a) => s.Goto(a, WriteUnlocking(s.PhaseOf(a).change))
    case UnlockWrite(a) =>
      s.(locks := s.locks[s.PhaseOf(a).change.gate := Lock({}, None)]).Goto(a, Idle)
    case StartFetch(a, name) =>
      s.Goto(a, Fetching(Fetch(name, s.registry.sources[name], s.registry.Generation(name))))
    case CheckCurrent(a) =>
      var f := s.PhaseOf(a).fetch;
      s.Goto(a, if s.registry.IsCurrent(f.name, f.source, f.generation) then Checked(f) else Resting(f))
    case FindGate(a) =>
      var f := s.PhaseOf(a).fetch;
      var (registry, gate) := SourceRegistry.FindGate(s.registry, f.name);
      s.(registry := registry).Goto(a, AwaitingRead(f, gate))
    case LockRead(a) =>
      var p := s.PhaseOf(a);
      var lock := s.LockOf(p.gate);
      s.(locks := s.locks[p.gate := lock.(readers := lock.readers + {a})]).Goto(a, ReadLocked(p.fetch, p.gate))
    case Recheck(a) =>
      var p := s.PhaseOf(a);
      s.Goto(a, if s.registry.IsCurrent(p.fetch.name, p.fetch.source, p.fetch.generation)
                then InEffects(p.fetch, p.gate) else ReadUnlocking(p.fetch, p.gate))
    case PerformEffect(a) => s.(log := s.log + [Effect(s.PhaseOf(a).fetch)])
    case EndEffects(a) => s.Goto(a, ReadUnlocking(s.PhaseOf(a).fetch, s.PhaseOf(a).gate))
    case UnlockRead(a) =>
      var p := s.PhaseOf(a);
      var lock := s.LockOf(p.gate);
      s.(locks := s.locks[p.gate := lock.(readers := lock.readers - {a})]).Goto(a, Resting(p.fetch))
    case FetchAgain(a) => s.Goto(a, Fetching(s.PhaseOf(a).fetch))
  }

  ghost predicate Init(s: State) {
    && s.registry.Valid()
    && (forall n :: s.registry.Generation(n) == if n in s.registry.sources then 1 else 0)
    && s.prepared == {} && s.locks == map[] && s.phases == map[] && s.log == []
  }

  /** A run is a sequence of states joined by enabled actions. */
  ghost predicate IsRun(states: seq<State>, actions: seq<Action>) {
    && |states| == |actions| + 1
    && Init(states[0])
    && (forall i {:trigger actions[i]} | 0 <= i < |actions| ::
          Enabled(states[i], actions[i]) && states[i + 1] == Apply(states[i], actions[i]))
  }

  // ---- the inductive invariant ----

  predicate HoldsWrite(p: Phase, g: GateId) {
    (p.WriteLocked? || p.WriteUnlocking?) && p.change.gate == g
  }

  predicate HoldsRead(p: Phase, g: GateId) {
    (p.ReadLocked? || p.InEffects? || p.ReadUnlocking?) && p.gate == g
  }

  /** A gate made up for an unregistered name is forgotten unless its change commits; once the
      generation is positive every later change and every fetch carries the stored gate. */
  ghost predicate ChangeOk(r: Registry, c: Change) {
    && c.gate < r.nextGate
    && c.generation <= r.Generation(c.name)
    && (c.generation >= 1 ==> c.name in r.gates && c.gate == r.gates[c.name])
    && (c.next.Some? ==> c.next.value.1.name == c.name)
  }

  ghost predicate PhaseOk(r: Registry, p: Phase) {
    match p
    case Idle => true
    case AwaitingWrite(c) => ChangeOk(r, c)
    case WriteLocked(c) => ChangeOk(r, c)
    case WriteUnlocking(c) => true
    case Fetching(f) => FetchOk(r, f)
    case Checked(f) => FetchOk(r, f)
    case AwaitingRead(f, g) => FetchOk(r, f) && StoredGate(r, f, g)
    case ReadLocked(f, g) => FetchOk(r, f) && StoredGate(r, f, g)
    case InEffects(f, g) => FetchOk(r, f) && StoredGate(r, f, g) && r.IsCurrent(f.name, f.source, f.generation)
    case ReadUnlocking(f, g) => FetchOk(r, f)
    case Resting(f) => FetchOk(r, f)
  }

  ghost predicate FetchOk(r: Registry, f: Fetch) {
    1 <= f.generation <= r.Generation(f.name)
  }

  ghost predicate StoredGate(r: Registry, f: Fetch, g: GateId) {
    f.name in r.gates && g == r.gates[f.name]
  }

  ghost predicate LocksOk(s: State) {
    && (forall a: ActorId, g: GateId :: s.LockOf(g).writer == Some(a) <==> HoldsWrite(s.PhaseOf(a), g))
    && (forall a: ActorId, g: GateId :: a in s.LockOf(g).readers <==> HoldsRead(s.PhaseOf(a), g))
    && (forall g: GateId :: s.LockOf(g).writer.Some? ==> s.LockOf(g).readers == {})
  }

  ghost predicate Inv(s: State) {
    && s.registry.Valid()
    && (forall c | c in s.prepared :: ChangeOk(s.registry, c))
    && (forall a: ActorId :: PhaseOk(s.registry, s.PhaseOf(a)))
    && LocksOk(s)
  }

  /** The heart of the fence: a change that matches contends on the gate the effect holder has locked. */
  lemma EffectsBlockCommit(s: State, holder: ActorId, committer: ActorId)
    requires Inv(s) && s.PhaseOf(holder).InEffects?
    requires Enabled(s, Commit(committer))
    ensures s.PhaseOf(committer).change.name != s.PhaseOf(holder).fetch.name
  {
    var p, c := s.PhaseOf(holder), s.PhaseOf(committer).change;
    assert PhaseOk(s.registry, p) && PhaseOk(s.registry, s.PhaseOf(committer));
    assert HoldsRead(p, p.gate) && HoldsWrite(s.PhaseOf(committer), c.gate);
    assert holder in s.LockOf(p.gate).readers && s.LockOf(c.gate).writer == Some(committer);
  }

  /** What a registry step may do to the facts other actors rely on. */
  ghost predicate Extends(r: Registry, r': Registry) {
    && r'.Valid()
    && r.nextGate <= r'.nextGate
    && (forall n :: r.Generation(n) <= r'.Generation(n))
    && (forall n | r.Generation(n) >= 1 :: n in r.gates && n in r'.gates && r'.gates[n] == r.gates[n])
  }

  lemma ExtendKeepsPhase(r: Registry, r': Registry, p: Phase)
    requires r.Valid() && Extends(r, r') && PhaseOk(r, p)
    requires p.InEffects? ==> r'.IsCurrent(p.fetch.name, p.fetch.source, p.fetch.generation)
    ensures PhaseOk(r', p)
  {
  }

  lemma CommitExtends(r: Registry, c: Change)
    requires r.Valid() && r.Matches(c) && ChangeOk(r, c)
    ensures Extends(r, SourceRegistry.Commit(r, c))
  {
    CommitKeepsValid(r, c);
  }

  lemma CommitKeepsOthers(s: State, a: ActorId, b: ActorId)
    requires Inv(s) && Enabled(s, Commit(a)) && a != b
    ensures PhaseOk(SourceRegistry.Commit(s.registry, s.PhaseOf(a).change), s.PhaseOf(b))
  {
    assert PhaseOk(s.registry, s.PhaseOf(a)) && PhaseOk(s.registry, s.PhaseOf(b));
    if s.PhaseOf(b).InEffects? {
      EffectsBlockCommit(s, b, a);
    }
  }

  lemma CommitStep(s: State, a: ActorId)
    requires Inv(s) && Enabled(s, Commit(a))
    ensures Inv(Apply(s, Commit(a)))
  {
    CommitKeepsPhases(s, a);
    CommitKeepsLocks(s, a);
  }

  lemma CommitKeepsLocks(s: State, a: ActorId)
    requires LocksOk(s) && Enabled(s, Commit(a))
    ensures LocksOk(Apply(s, Commit(a)))
  {
    LocksUntouched(s, Apply(s, Commit(a)), a);
  }

  lemma CommitKeepsPhases(s: State, a: ActorId)
    requires Inv(s) && Enabled(s, Commit(a))
    ensures var s' := Apply(s, Commit(a));
      && s'.registry.Valid()
      && (forall c | c in s'.prepared :: ChangeOk(s'.registry, c))
      && (forall b: ActorId :: PhaseOk(s'.registry, s'.PhaseOf(b)))
  {
    var s' := Apply(s, Commit(a));
    assert PhaseOk(s.registry, s.PhaseOf(a));
    CommitExtends(s.registry, s.PhaseOf(a).change);
    forall b: ActorId ensures PhaseOk(s'.registry, s'.PhaseOf(b)) {
      if b != a {
        CommitKeepsOthers(s, a, b);
      }
    }
  }

  /** A step that moves one actor without changing which gates it holds. */
  lemma LocksUntouched(s: State, s': State, a: ActorId)
    requires LocksOk(s) && s'.locks == s.locks
    requires forall b: ActorId | b != a :: s'.PhaseOf(b) == s.PhaseOf(b)
    requires forall g: GateId :: HoldsWrite(s'.PhaseOf(a), g) == HoldsWrite(s.PhaseOf(a), g)
    requires forall g: GateId :: HoldsRead(s'.PhaseOf(a), g) == HoldsRead(s.PhaseOf(a), g)
    ensures LocksOk(s')
  {
    forall b: ActorId, g: GateId ensures s'.LockOf(g).writer == Some(b) <==> HoldsWrite(s'.PhaseOf(b), g) {
      assert s.LockOf(g).writer == Some(b) <==> HoldsWrite(s.PhaseOf(b), g);
    }
    forall b: ActorId, g: GateId ensures b in s'.LockOf(g).readers <==> HoldsRead(s'.PhaseOf(b), g) {
      assert b in s.LockOf(g).readers <==> HoldsRead(s.PhaseOf(b), g);
    }
    forall g: GateId ensures s'.LockOf(g).writer.Some? ==> s'.LockOf(g).readers == {} {
      assert s'.LockOf(g) == s.LockOf(g);
    }
  }

  /** Steps of an actor that leave locks and registry facts alone: the new phase must be justified. */
  lemma MoveStep(s: State, s': State, a: ActorId)
    requires Inv(s) && Extends(s.registry, s'.registry)
    requires s'.registry.sources == s.registry.sources && s'.registry.generations == s.registry.generations
    requires s'.locks == s.locks && s'.phases == s.phases[a := s'.PhaseOf(a)]
    requires s'.prepared == s.prepared
    requires PhaseOk(s'.registry, s'.PhaseOf(a))
    requires forall g: GateId :: HoldsWrite(s'.PhaseOf(a), g) == HoldsWrite(s.PhaseOf(a), g)
    requires forall g: GateId :: HoldsRead(s'.PhaseOf(a), g) == HoldsRead(s.PhaseOf(a), g)
    ensures Inv(s')
  {
    forall b: ActorId ensures PhaseOk(s'.registry, s'.PhaseOf(b)) {
      if b != a {
        assert PhaseOk(s.registry, s.PhaseOf(b));
        ExtendKeepsPhase(s.registry, s'.registry, s.PhaseOf(b));
      }
    }
    LocksUntouched(s, s', a);
  }

  lemma SameRegistryExtends(r: Registry)
    requires r.Valid()
    ensures Extends(r, r)
  {
  }

  /** Steps that acquire or release gate g. */
  lemma LockStep(s: State, s': State, a: ActorId, g: GateId)
    requires Inv(s)
    requires s'.registry == s.registry && s'.prepared == s.prepared
    requires s'.phases == s.phases[a := s'.PhaseOf(a)] && s'.locks == s.locks[g := s'.LockOf(g)]
    requires PhaseOk(s.registry, s'.PhaseOf(a))
    requires forall h: GateId | h != g :: !HoldsWrite(s.PhaseOf(a), h) && !HoldsWrite(s'.PhaseOf(a), h)
    requires forall h: GateId | h != g :: !HoldsRead(s.PhaseOf(a), h) && !HoldsRead(s'.PhaseOf(a), h)
    requires forall b: ActorId | b != a :: s'.LockOf(g).writer == Some(b) <==> s.LockOf(g).writer == Some(b)
    requires forall b: ActorId | b != a :: b in s'.LockOf(g).readers <==> b in s.LockOf(g).readers
    requires s'.LockOf(g).writer == Some(a) <==> HoldsWrite(s'.PhaseOf(a), g)
    requires a in s'.LockOf(g).readers <==> HoldsRead(s'.PhaseOf(a), g)
    requires s'.LockOf(g).writer.Some? ==> s'.LockOf(g).readers == {}
    ensures Inv(s')
  {
    forall b: ActorId ensures PhaseOk(s'.registry, s'.PhaseOf(b)) {
      assert PhaseOk(s.registry, s.PhaseOf(b));
    }
    LockMoves(s, s', a, g);
  }

  lemma LockMoves(s: State, s': State, a: ActorId, g: GateId)
    requires LocksOk(s)
    requires s'.phases == s.phases[a := s'.PhaseOf(a)] && s'.locks == s.locks[g := s'.LockOf(g)]
    requires forall h: GateId | h != g :: !HoldsWrite(s.PhaseOf(a), h) && !HoldsWrite(s'.PhaseOf(a), h)
    requires forall h: GateId | h != g :: !HoldsRead(s.PhaseOf(a), h) && !HoldsRead(s'.PhaseOf(a), h)
    requires forall b: ActorId | b != a :: s'.LockOf(g).writer == Some(b) <==> s.LockOf(g).writer == Some(b)
    requires forall b: ActorId | b != a :: b in s'.LockOf(g).readers <==> b in s.LockOf(g).readers
    requires s'.LockOf(g).writer == Some(a) <==> HoldsWrite(s'.PhaseOf(a), g)
    requires a in s'.LockOf(g).readers <==> HoldsRead(s'.PhaseOf(a), g)
    requires s'.LockOf(g).writer.Some? ==> s'.LockOf(g).readers == {}
    ensures LocksOk(s')
  {
    forall b: ActorId, h: GateId ensures s'.LockOf(h).writer == Some(b) <==> HoldsWrite(s'.PhaseOf(b), h) {
      assert s.LockOf(h).writer == Some(b) <==> HoldsWrite(s.PhaseOf(b), h);
    }
    forall b: ActorId, h: GateId ensures b in s'.LockOf(h).readers <==> HoldsRead(s'.PhaseOf(b), h) {
      assert b in s.LockOf(h).readers <==> HoldsRead(s.PhaseOf(b), h);
    }
    forall h: GateId ensures s'.LockOf(h).writer.Some? ==> s'.LockOf(h).readers == {} {
      assert s.LockOf(h).writer.Some? ==> s.LockOf(h).readers == {};
    }
  }

  lemma PrepareStep(s: State, name: string, next: Option<(SourceId, SourceInfo)>)
    requires Inv(s) && Enabled(s, Prepare(name, next))
    ensures Inv(Apply(s, Prepare(name, next)))
  {
    var s' := Apply(s, Prepare(name, next));
    PrepareKeepsValid(s.registry, name, next);
    forall b: ActorId ensures PhaseOk(s'.registry, s'.PhaseOf(b)) {
      assert PhaseOk(s.registry, s.PhaseOf(b));
      ExtendKeepsPhase(s.registry, s'.registry, s.PhaseOf(b));
    }
    LocksUntouched(s, s', 0);
  }

  lemma WriteGateStep(s: State, action: Action)
    requires Inv(s) && Enabled(s, action) && (action.LockWrite? || action.UnlockWrite?)
    ensures Inv(Apply(s, action))
  {
    var s', a := Apply(s, action), action.actor;
    var p := s.PhaseOf(a);
    assert PhaseOk(s.registry, p);
    assert s.LockOf(p.change.gate).writer == Some(a) <==> HoldsWrite(p, p.change.gate);
    assert a in s.LockOf(p.change.gate).readers <==> HoldsRead(p, p.change.gate);
    LockStep(s, s', a, p.change.gate);
  }

  lemma ReadGateStep(s: State, action: Action)
    requires Inv(s) && Enabled(s, action) && (action.LockRead? || action.UnlockRead?)
    ensures Inv(Apply(s, action))
  {
    var s', a := Apply(s, action), action.actor;
    var p := s.PhaseOf(a);
    assert PhaseOk(s.registry, p);
    assert s.LockOf(p.gate).writer == Some(a) <==> HoldsWrite(p, p.gate);
    assert a in s.LockOf(p.gate).readers <==> HoldsRead(p, p.gate);
    LockStep(s, s', a, p.gate);
  }

  lemma RemovalStep(s: State, action: Action)
    requires Inv(s) && Enabled(s, action) && action.BeginRemoval?
    ensures Inv(Apply(s, action))
  {
    assert PhaseOk(s.registry, s.PhaseOf(action.actor));
    RemovalKeepsValid(s.registry, action.name);
    MoveStep(s, Apply(s, action), action.actor);
  }

  lemma FindGateStep(s: State, action: Action)
    requires Inv(s) && Enabled(s, action) && action.FindGate?
    ensures Inv(Apply(s, action))
  {
    assert PhaseOk(s.registry, s.PhaseOf(action.actor));
    MoveStep(s, Apply(s, action), action.actor);
  }

  lemma StartStep(s: State, action: Action)
    requires Inv(s) && Enabled(s, action) && (action.FirstCheck? || action.StartFetch?)
    ensures Inv(Apply(s, action))
  {
    SameRegistryExtends(s.registry);
    MoveStep(s, Apply(s, action), action.actor);
  }

  lemma CheckStep(s: State, a: ActorId)
    requires Inv(s) && Enabled(s, CheckCurrent(a))
    ensures Inv(Apply(s, CheckCurrent(a)))
  {
    assert PhaseOk(s.registry, s.PhaseOf(a));
    SameRegistryExtends(s.registry);
    MoveStep(s, Apply(s, CheckCurrent(a)), a);
  }

  lemma RecheckStep(s: State, a: ActorId)
    requires Inv(s) && Enabled(s, Recheck(a))
    ensures Inv(Apply(s, Recheck(a)))
  {
    assert PhaseOk(s.registry, s.PhaseOf(a));
    SameRegistryExtends(s.registry);
    MoveStep(s, Apply(s, Recheck(a)), a);
  }

  lemma RefuseStep(s: State, action: Action)
    requires Inv(s) && Enabled(s, action) && action.Refuse?
    ensures Inv(Apply(s, action))
  {
    assert PhaseOk(s.registry, s.PhaseOf(action.actor));
    SameRegistryExtends(s.registry);
    MoveStep(s, Apply(s, action), action.actor);
  }

  lemma EndStep(s: State, action: Action)
    requires Inv(s) && Enabled(s, action) && action.EndEffects?
    ensures Inv(Apply(s, action))
  {
    assert PhaseOk(s.registry, s.PhaseOf(action.actor));
    SameRegistryExtends(s.registry);
    MoveStep(s, Apply(s, action), action.actor);
  }

  lemma AgainStep(s: State, action: Action)
    requires Inv(s) && Enabled(s, action) && action.FetchAgain?
    ensures Inv(Apply(s, action))
  {
    assert PhaseOk(s.registry, s.PhaseOf(action.actor));
    SameRegistryExtends(s.registry);
    MoveStep(s, Apply(s, action), action.actor);
  }

  /** An effect only writes the log. */
  lemma EffectStep(s: State, a: ActorId)
    requires Inv(s) && Enabled(s, PerformEffect(a))
    ensures Inv(Apply(s, PerformEffect(a)))
  {
    var s' := Apply(s, PerformEffect(a));
    forall b: ActorId ensures PhaseOk(s'.registry, s'.PhaseOf(b)) {
      assert PhaseOk(s.registry, s.PhaseOf(b));
    }
    LocksUntouched(s, s', a);
  }

  lemma Preserved(s: State, action: Action)
    requires Inv(s) && Enabled(s, action)
    ensures Inv(Apply(s, action))
  {
    match action {
      case Prepare(name, next) => PrepareStep(s, name, next);
      case Commit(a) => CommitStep(s, a);
      case BeginRemoval(_, _) => RemovalStep(s, action);
      case FindGate(_) => FindGateStep(s, action);
      case FirstCheck(_, _) => StartStep(s, action);
      case StartFetch(_, _) => StartStep(s, action);
      case LockWrite(_) => WriteGateStep(s, action);
      case UnlockWrite(_) => WriteGateStep(s, action);
      case LockRead(_) => ReadGateStep(s, action);
      case UnlockRead(_) => ReadGateStep(s, action);
      case CheckCurrent(a) => CheckStep(s, a);
      case Recheck(a) => RecheckStep(s, a);
      case PerformEffect(a) => EffectStep(s, a);
      case Refuse(_) => RefuseStep(s, action);
      case EndEffects(_) => EndStep(s, action);
      case FetchAgain(_) => AgainStep(s, action);
    }
  }

  lemma {:induction false} Reachable(states: seq<State>, actions: seq<Action>, k: nat)
    requires IsRun(states, actions) && k < |states|
    ensures Inv(states[k])
  {
    if k > 0 {
      Reachable(states, actions, k - 1);
      Preserved(states[k - 1], actions[k - 1]);
    }
  }

  // ---- safety over whole runs ----

  /** While a fetch holds effects, the registry serves exactly its source and generation, and no step that
      commits an activation, a disabling or a removal of that name is enabled. */
  lemma HolderExcludesChanges(states: seq<State>, actions: seq<Action>, k: nat, holder: ActorId, committer: ActorId)
    requires IsRun(states, actions) && k < |states|
    requires states[k].PhaseOf(holder).InEffects?
    ensures var f := states[k].PhaseOf(holder).fetch;
      states[k].registry.IsCurrent(f.name, f.source, f.generation) &&
      (Enabled(states[k], Commit(committer)) ==> states[k].PhaseOf(committer).change.name != f.name)
  {
    Reachable(states, actions, k);
    assert PhaseOk(states[k].registry, states[k].PhaseOf(holder));
    if Enabled(states[k], Commit(committer)) {
      EffectsBlockCommit(states[k], holder, committer);
    }
  }

  lemma StepExtends(s: State, action: Action)
    requires Inv(s) && Enabled(s, action)
    ensures Extends(s.registry, Apply(s, action).registry)
  {
    match action {
      case Prepare(name, next) => PrepareKeepsValid(s.registry, name, next);
      case BeginRemoval(_, name) => RemovalKeepsValid(s.registry, name);
      case Commit(a) =>
        assert PhaseOk(s.registry, s.PhaseOf(a));
        CommitExtends(s.registry, s.PhaseOf(a).change);
      case FindGate(a) =>
        assert PhaseOk(s.registry, s.PhaseOf(a));
        FindGateExtends(s.registry, s.PhaseOf(a).fetch);
      case _ => SameRegistryExtends(s.registry);
    }
  }

  lemma FindGateExtends(r: Registry, f: Fetch)
    requires r.Valid() && FetchOk(r, f)
    ensures Extends(r, SourceRegistry.FindGate(r, f.name).0)
  {
  }

  /** Once a name has a positive generation its gate object never changes, and generations never go back. */
  lemma {:induction false} GateIsStable(states: seq<State>, actions: seq<Action>, i: nat, j: nat, name: string)
    requires IsRun(states, actions) && i <= j < |states|
    ensures states[i].registry.Generation(name) <= states[j].registry.Generation(name)
    ensures states[i].registry.Generation(name) >= 1 ==>
      name in states[i].registry.gates && name in states[j].registry.gates &&
      states[j].registry.gates[name] == states[i].registry.gates[name]
  {
    Reachable(states, actions, i);
    if i < j {
      GateIsStable(states, actions, i, j - 1, name);
      Reachable(states, actions, j - 1);
      StepExtends(states[j - 1], actions[j - 1]);
    }
  }

  // ---- nothing gets stuck ----

  /** A step of an actor that is under way, as against a new change, removal or fetch. */
  predicate Continues(action: Action) {
    !action.Prepare? && !action.FirstCheck? && !action.BeginRemoval? && !action.StartFetch?
  }

  ghost predicate CanContinue(s: State) {
    exists action :: Continues(action) && Enabled(s, action)
  }

  lemma MovesOn(s: State, action: Action)
    requires Continues(action) && Enabled(s, action)
    ensures CanContinue(s)
  {
  }

  lemma WriterMovesOn(s: State, a: ActorId, g: GateId)
    requires HoldsWrite(s.PhaseOf(a), g)
    ensures CanContinue(s)
  {
    if s.PhaseOf(a).WriteUnlocking? {
      MovesOn(s, UnlockWrite(a));
    } else if s.registry.Matches(s.PhaseOf(a).change) {
      MovesOn(s, Commit(a));
    } else {
      MovesOn(s, Refuse(a));
    }
  }

  lemma ReaderMovesOn(s: State, a: ActorId, g: GateId)
    requires HoldsRead(s.PhaseOf(a), g)
    ensures CanContinue(s)
  {
    match s.PhaseOf(a)
    case ReadLocked(_, _) => MovesOn(s, Recheck(a));
    case InEffects(_, _) => MovesOn(s, EndEffects(a));
    case ReadUnlocking(_, _) => MovesOn(s, UnlockRead(a));
  }

  lemma WriteWaiterMovesOn(s: State, a: ActorId)
    requires LocksOk(s) && s.PhaseOf(a).AwaitingWrite?
    ensures CanContinue(s)
  {
    var g := s.PhaseOf(a).change.gate;
    if s.LockOf(g).writer.Some? {
      WriterMovesOn(s, s.LockOf(g).writer.value, g);
    } else if s.LockOf(g).readers != {} {
      var b :| b in s.LockOf(g).readers;
      ReaderMovesOn(s, b, g);
    } else {
      MovesOn(s, LockWrite(a));
    }
  }

  lemma ReadWaiterMovesOn(s: State, a: ActorId)
    requires LocksOk(s) && s.PhaseOf(a).AwaitingRead?
    ensures CanContinue(s)
  {
    var g := s.PhaseOf(a).gate;
    if s.LockOf(g).writer.Some? {
      WriterMovesOn(s, s.LockOf(g).writer.value, g);
    } else {
      MovesOn(s, LockRead(a));
    }
  }

  /** There is no deadlock: in every reachable state in which an actor is under way, some actor under way has a
      step. */
  lemma NeverDeadlocked(states: seq<State>, actions: seq<Action>, k: nat, a: ActorId)
    requires IsRun(states, actions) && k < |states| && !states[k].PhaseOf(a).Idle?
    ensures CanContinue(states[k])
  {
    Reachable(states, actions, k);
    var s := states[k];
    match s.PhaseOf(a)
    case AwaitingWrite(_) => WriteWaiterMovesOn(s, a);
    case AwaitingRead(_, _) => ReadWaiterMovesOn(s, a);
    case Fetching(_) => MovesOn(s, CheckCurrent(a));
    case Checked(_) => MovesOn(s, FindGate(a));
    case Resting(_) => MovesOn(s, FetchAgain(a));
    case WriteLocked(c) => WriterMovesOn(s, a, c.gate);
    case WriteUnlocking(c) => WriterMovesOn(s, a, c.gate);
    case ReadLocked(_, g) => ReaderMovesOn(s, a, g);
    case InEffects(_, g) => ReaderMovesOn(s, a, g);
    case ReadUnlocking(_, g) => ReaderMovesOn(s, a, g);
  }

  // ---- an undisturbed actor gets through ----

  /** The steps can be taken one after the other from s, and end in t. */
  ghost predicate Leads(s: State, steps: seq<Action>, t: State)
    decreases |steps|
  {
    if steps == [] then t == s else Enabled(s, steps[0]) && Leads(Apply(s, steps[0]), steps[1..], t)
  }

  lemma Then(s: State, action: Action, rest: seq<Action>, t: State)
    requires Enabled(s, action) && Leads(Apply(s, action), rest, t)
    ensures Leads(s, [action] + rest, t)
  {
    assert ([action] + rest)[1..] == rest;
  }

  /** Where no writer holds the name's gate, a fetch of a registered name reaches its effects, with the source and
      generation that serve. */
  lemma UndisturbedFetchTakesEffect(s: State, a: ActorId, name: string) returns (t: State)
    requires Inv(s) && s.PhaseOf(a) == Idle && name in s.registry.sources
    requires s.LockOf(s.registry.gates[name]).writer == None
    ensures Leads(s, [StartFetch(a, name), CheckCurrent(a), FindGate(a), LockRead(a), Recheck(a)], t)
    ensures t.registry == s.registry && t.PhaseOf(a) ==
      InEffects(Fetch(name, s.registry.sources[name], s.registry.Generation(name)), s.registry.gates[name])
  {
    var f, g := Fetch(name, s.registry.sources[name], s.registry.Generation(name)), s.registry.gates[name];
    var s1 := s.Goto(a, Fetching(f));
    t := FetchFromCheck(s1, a, f, g);
    Then(s, StartFetch(a, name), [CheckCurrent(a), FindGate(a), LockRead(a), Recheck(a)], t);
    assert [StartFetch(a, name)] + [CheckCurrent(a), FindGate(a), LockRead(a), Recheck(a)] ==
      [StartFetch(a, name), CheckCurrent(a), FindGate(a), LockRead(a), Recheck(a)];
  }

  lemma FetchFromCheck(s: State, a: ActorId, f: Fetch, g: GateId) returns (t: State)
    requires s.PhaseOf(a) == Fetching(f) && s.registry.IsCurrent(f.name, f.source, f.generation)
    requires f.name in s.registry.gates && g == s.registry.gates[f.name] && s.LockOf(g).writer == None
    ensures Leads(s, [CheckCurrent(a), FindGate(a), LockRead(a), Recheck(a)], t)
    ensures t.registry == s.registry && t.PhaseOf(a) == InEffects(f, g)
  {
    var s1 := s.Goto(a, Checked(f));
    var s2 := s1.Goto(a, AwaitingRead(f, g));
    t := FetchFromGate(s2, a, f, g);
    Then(s1, FindGate(a), [LockRead(a), Recheck(a)], t);
    assert [FindGate(a)] + [LockRead(a), Recheck(a)] == [FindGate(a), LockRead(a), Recheck(a)];
    Then(s, CheckCurrent(a), [FindGate(a), LockRead(a), Recheck(a)], t);
    assert [CheckCurrent(a)] + [FindGate(a), LockRead(a), Recheck(a)] ==
      [CheckCurrent(a), FindGate(a), LockRead(a), Recheck(a)];
  }

  lemma FetchFromGate(s: State, a: ActorId, f: Fetch, g: GateId) returns (t: State)
    requires s.PhaseOf(a) == AwaitingRead(f, g) && s.LockOf(g).writer == None
    requires s.registry.IsCurrent(f.name, f.source, f.generation)
    ensures Leads(s, [LockRead(a), Recheck(a)], t) && t.registry == s.registry && t.PhaseOf(a) == InEffects(f, g)
  {
    var s1 := Apply(s, LockRead(a));
    t := Apply(s1, Recheck(a));
    Then(s1, Recheck(a), [], t);
    Then(s, LockRead(a), [Recheck(a)] + [], t);
    assert [LockRead(a)] + ([Recheck(a)] + []) == [LockRead(a), Recheck(a)];
  }

  /** A fetch in its effects logs what it does, gives its gate back, and goes round with the same source and
      generation. */
  lemma EffectsEnd(s: State, a: ActorId, f: Fetch, g: GateId) returns (t: State)
    requires s.PhaseOf(a) == InEffects(f, g)
    ensures Leads(s, [PerformEffect(a), EndEffects(a), UnlockRead(a), FetchAgain(a)], t)
    ensures t.registry == s.registry && t.log == s.log + [Effect(f)] && t.PhaseOf(a) == Fetching(f)
    ensures t.LockOf(g) == s.LockOf(g).(readers := s.LockOf(g).readers - {a})
    ensures forall h | h != g :: t.LockOf(h) == s.LockOf(h)
  {
    var s1 := Apply(s, PerformEffect(a));
    var s2 := Apply(s1, EndEffects(a));
    t := GateIsGivenBack(s2, a, f, g);
    Then(s1, EndEffects(a), [UnlockRead(a), FetchAgain(a)], t);
    assert [EndEffects(a)] + [UnlockRead(a), FetchAgain(a)] == [EndEffects(a), UnlockRead(a), FetchAgain(a)];
    Then(s, PerformEffect(a), [EndEffects(a), UnlockRead(a), FetchAgain(a)], t);
    assert [PerformEffect(a)] + [EndEffects(a), UnlockRead(a), FetchAgain(a)] ==
      [PerformEffect(a), EndEffects(a), UnlockRead(a), FetchAgain(a)];
  }

  lemma GateIsGivenBack(s: State, a: ActorId, f: Fetch, g: GateId) returns (t: State)
    requires s.PhaseOf(a) == ReadUnlocking(f, g)
    ensures Leads(s, [UnlockRead(a), FetchAgain(a)], t)
    ensures t.registry == s.registry && t.log == s.log && t.PhaseOf(a) == Fetching(f)
    ensures t.locks == s.locks[g := s.LockOf(g).(readers := s.LockOf(g).readers - {a})]
  {
    var s1 := Apply(s, UnlockRead(a));
    t := Apply(s1, FetchAgain(a));
    Then(s1, FetchAgain(a), [], t);
    Then(s, UnlockRead(a), [FetchAgain(a)] + [], t);
    assert [UnlockRead(a)] + ([FetchAgain(a)] + []) == [UnlockRead(a), FetchAgain(a)];
  }

  /** Where the gate is free, a prepared change that still matches is committed, logged, and its gate freed. */
  lemma UndisturbedChangeCommits(s: State, a: ActorId, c: Change) returns (t: State)
    requires Inv(s) && s.PhaseOf(a) == Idle && c in s.prepared && s.registry.Matches(c)
    requires s.LockOf(c.gate) == Lock({}, None)
    ensures Leads(s, [FirstCheck(a, c), LockWrite(a), Commit(a), UnlockWrite(a)], t)
    ensures t.registry == SourceRegistry.Commit(s.registry, c) && t.log == s.log + [Committed(c)]
    ensures t.PhaseOf(a) == Idle && t.LockOf(c.gate) == Lock({}, None)
  {
    var s1 := s.Goto(a, AwaitingWrite(c));
    var s2 := Apply(s1, LockWrite(a));
    t := CommitFromLock(s2, a, c);
    Then(s1, LockWrite(a), [Commit(a), UnlockWrite(a)], t);
    assert [LockWrite(a)] + [Commit(a), UnlockWrite(a)] == [LockWrite(a), Commit(a), UnlockWrite(a)];
    Then(s, FirstCheck(a, c), [LockWrite(a), Commit(a), UnlockWrite(a)], t);
    assert [FirstCheck(a, c)] + [LockWrite(a), Commit(a), UnlockWrite(a)] ==
      [FirstCheck(a, c), LockWrite(a), Commit(a), UnlockWrite(a)];
  }

  lemma CommitFromLock(s: State, a: ActorId, c: Change) returns (t: State)
    requires s.PhaseOf(a) == WriteLocked(c) && s.registry.Matches(c)
    ensures Leads(s, [Commit(a), UnlockWrite(a)], t)
    ensures t.registry == SourceRegistry.Commit(s.registry, c) && t.log == s.log + [Committed(c)]
    ensures t.PhaseOf(a) == Idle && t.LockOf(c.gate) == Lock({}, None)
  {
    var s1 := Apply(s, Commit(a));
    t := Apply(s1, UnlockWrite(a));
    Then(s1, UnlockWrite(a), [], t);
    Then(s, Commit(a), [UnlockWrite(a)] + [], t);
    assert [Commit(a)] + ([UnlockWrite(a)] + []) == [Commit(a), UnlockWrite(a)];
  }

  // ---- the log of commits and effects ----

  /** The source and generation a name has after the logged commits, read off the log alone. */
  function Serving(start: Registry, log: seq<Event>, name: string): (Option<SourceId>, nat) {
    if log == [] then (start.Source(name), start.Generation(name))
    else
      var last := log[|log| - 1];
      if last.Committed? && last.change.name == name then
        (if last.change.next.Some? then Some(last.change.next.value.0) else None, last.change.generation + 1)
      else Serving(start, log[..|log| - 1], name)
  }

  /** Each commit was prepared against what was serving just before it; each effect belongs to the
      source and generation serving when it happens. */
  ghost predicate Linearizable(start: Registry, log: seq<Event>) {
    log == [] ||
    (var front, last := log[..|log| - 1], log[|log| - 1];
     Linearizable(start, front) &&
     match last
     case Committed(c) => Serving(start, front, c.name) == (c.previous, c.generation)
     case Effect(f) => Serving(start, front, f.name) == (Some(f.source), f.generation))
  }

  ghost predicate Serves(start: Registry, r: Registry, log: seq<Event>) {
    && Linearizable(start, log)
    && forall n :: Serving(start, log, n) == (r.Source(n), r.Generation(n))
  }

  ghost predicate LogMatches(start: Registry, s: State) {
    Serves(start, s.registry, s.log)
  }

  lemma LogCommit(start: Registry, r: Registry, log: seq<Event>, c: Change)
    requires r.Valid() && ChangeOk(r, c) && r.Matches(c) && Serves(start, r, log)
    ensures Serves(start, SourceRegistry.Commit(r, c), log + [Committed(c)])
  {
    CommitKeepsValid(r, c);
    var more := log + [Committed(c)];
    assert more[..|more| - 1] == log;
    assert Linearizable(start, more);
    forall n ensures Serving(start, more, n) ==
      (SourceRegistry.Commit(r, c).Source(n), SourceRegistry.Commit(r, c).Generation(n))
    {
    }
  }

  lemma LogEffect(start: Registry, r: Registry, log: seq<Event>, f: Fetch)
    requires Serves(start, r, log) && r.IsCurrent(f.name, f.source, f.generation)
    ensures Serves(start, r, log + [Effect(f)])
  {
    var more := log + [Effect(f)];
    assert more[..|more| - 1] == log;
    assert Serving(start, log, f.name) == (r.Source(f.name), r.Generation(f.name));
    assert Linearizable(start, more);
  }

  /** All other steps leave the log and what is registered alone. */
  lemma QuietStep(s: State, action: Action)
    requires Enabled(s, action) && !action.Commit? && !action.PerformEffect?
    ensures var s' := Apply(s, action);
      && s'.log == s.log
      && s'.registry.sources == s.registry.sources && s'.registry.generations == s.registry.generations
  {
  }

  lemma LogStep(start: Registry, s: State, action: Action)
    requires Inv(s) && LogMatches(start, s) && Enabled(s, action)
    ensures LogMatches(start, Apply(s, action))
  {
    match action {
      case Commit(a) => CommitLogStep(start, s, a);
      case PerformEffect(a) => EffectLogStep(start, s, a);
      case _ => QuietLogStep(start, s, action);
    }
  }

  lemma QuietLogStep(start: Registry, s: State, action: Action)
    requires LogMatches(start, s) && Enabled(s, action) && !action.Commit? && !action.PerformEffect?
    ensures LogMatches(start, Apply(s, action))
  {
    QuietStep(s, action);
    QuietLog(start, s.registry, Apply(s, action).registry, s.log);
  }

  lemma CommitLogStep(start: Registry, s: State, a: ActorId)
    requires Inv(s) && LogMatches(start, s) && Enabled(s, Commit(a))
    ensures LogMatches(start, Apply(s, Commit(a)))
  {
    assert PhaseOk(s.registry, s.PhaseOf(a));
    LogCommit(start, s.registry, s.log, s.PhaseOf(a).change);
  }

  lemma EffectLogStep(start: Registry, s: State, a: ActorId)
    requires Inv(s) && LogMatches(start, s) && Enabled(s, PerformEffect(a))
    ensures LogMatches(start, Apply(s, PerformEffect(a)))
  {
    assert PhaseOk(s.registry, s.PhaseOf(a));
    LogEffect(start, s.registry, s.log, s.PhaseOf(a).fetch);
  }

  lemma QuietLog(start: Registry, r: Registry, r': Registry, log: seq<Event>)
    requires Serves(start, r, log) && r'.sources == r.sources && r'.generations == r.generations
    ensures Serves(start, r', log)
  {
  }

  /** Every run's log is linearizable, and replaying it gives the registry. */
  lemma {:induction false} RunIsLinearizable(states: seq<State>, actions: seq<Action>, k: nat)
    requires IsRun(states, actions) && k < |states|
    ensures LogMatches(states[0].registry, states[k])
  {
    if k > 0 {
      RunIsLinearizable(states, actions, k - 1);
      Reachable(states, actions, k - 1);
      LogStep(states[0].registry, states[k - 1], actions[k - 1]);
    }
  }

  lemma {:induction false} ServingIsPastCommit(start: Registry, log: seq<Event>, i: nat)
    requires Linearizable(start, log) && i < |log| && log[i].Committed?
    ensures Serving(start, log, log[i].change.name).1 >= log[i].change.generation + 1
  {
    if i < |log| - 1 {
      ServingIsPastCommit(start, log[..|log| - 1], i);
    }
  }

  lemma {:induction false} LinearizablePrefix(start: Registry, log: seq<Event>, k: nat)
    requires Linearizable(start, log) && k <= |log|
    ensures Linearizable(start, log[..k])
  {
    if k < |log| {
      LinearizablePrefix(start, log[..|log| - 1], k);
      assert log[..|log| - 1][..k] == log[..k];
    } else {
      assert log[..k] == log;
    }
  }

  /** Generations strictly increase along the log, removals and re-additions included; so of all changes
      prepared against one snapshot of a name (one generation) at most one ever commits. */
  lemma OneCommitPerSnapshot(states: seq<State>, actions: seq<Action>, k: nat, i: nat, j: nat)
    requires IsRun(states, actions) && k < |states| && i < j < |states[k].log|
    requires states[k].log[i].Committed? && states[k].log[j].Committed?
    requires states[k].log[i].change.name == states[k].log[j].change.name
    ensures states[k].log[i].change.generation < states[k].log[j].change.generation
  {
    var start, log := states[0].registry, states[k].log;
    RunIsLinearizable(states, actions, k);
    LinearizablePrefix(start, log, j + 1);
    assert log[..j + 1][..j] == log[..j];
    ServingIsPastCommit(start, log[..j], i);
  }

  /** An effect that follows a commit of its name was fetched at the committed generation or later. */
  lemma NoStaleEffect(states: seq<State>, actions: seq<Action>, k: nat, i: nat, j: nat)
    requires IsRun(states, actions) && k < |states| && i < j < |states[k].log|
    requires states[k].log[i].Committed? && states[k].log[j].Effect?
    requires states[k].log[i].change.name == states[k].log[j].fetch.name
    ensures states[k].log[j].fetch.generation > states[k].log[i].change.generation
    ensures Serving(states[0].registry, states[k].log[..j], states[k].log[j].fetch.name)
      == (Some(states[k].log[j].fetch.source), states[k].log[j].fetch.generation)
  {
    var start, log := states[0].registry, states[k].log;
    RunIsLinearizable(states, actions, k);
    LinearizablePrefix(start, log, j + 1);
    assert log[..j + 1][..j] == log[..j];
    ServingIsPastCommit(start, log[..j], i);
  }
}
