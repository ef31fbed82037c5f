/**
 The source registry of the news engine: which source instance serves a name, how many times the name
 was changed (its generation), and which read/write gate its committers and effect holders contend on.
 Each method of `NewsEngine` is one critical section under `sourceMu`; each is proved against a function
 on the value `Registry`, and the interleaving of these sections is studied in module SourceFence.
 */
module SourceRegistry {
  import opened Options

  // Object identities: only equality of sources and of gates matters to the code.
  type SourceId = nat
  type GateId = nat

  datatype SourceInfo = SourceInfo(name: string, channels: seq<string>, deliveryMode: string)

  /** A prepared activation (next is Some), a prepared disabling or a pending removal (next is None). */
  datatype Change = Change(
    name: string,
    next: Option<(SourceId, SourceInfo)>,
    previous: Option<SourceId>,
    generation: nat,
    gate: GateId)

  datatype Registry = Registry(
    sources: map<string, SourceId>,
    infos: seq<SourceInfo>,
    generations: map<string, nat>,
    gates: map<string, GateId>,
    nextGate: GateId)
  {
    function Source(name: string): Option<SourceId> {
      if name in sources then Some(sources[name]) else None
    }

    /** Go's zero value for a missing map entry. */
    function Generation(name: string): nat {
      if name in generations then generations[name] else 0
    }

    /** The optimistic check made before and again after the gate is taken. */
    predicate Matches(c: Change) {
      Source(c.name) == c.previous && Generation(c.name) == c.generation
    }

    predicate IsCurrent(name: string, source: SourceId, generation: nat) {
      Source(name) == Some(source) && Generation(name) == generation
    }

    /** Every registered name has been given a generation, every such name owns a stored gate,
        the scheduling list has exactly one entry per registered source. */
    ghost predicate Valid() {
      && (forall n | n in sources :: Generation(n) >= 1)
      && (forall n | Generation(n) >= 1 :: n in gates)
      && (forall n | n in gates :: gates[n] < nextGate)
      && DistinctNames(infos)
      && Names(infos) == sources.Keys
    }
  }

  function Names(infos: seq<SourceInfo>): set<string> {
    if infos == [] then {} else {infos[0].name} + Names(infos[1..])
  }

  predicate DistinctNames(infos: seq<SourceInfo>) {
    infos == [] || (infos[0].name !in Names(infos[1..]) && DistinctNames(infos[1..]))
  }

  // ---- the lock sections on values ----

  /** PrepareSourceChange: a gate is made up when none is stored, and stored only for a registered name. */
  function Prepare(r: Registry, name: string, next: Option<(SourceId, SourceInfo)>): (Registry, Change) {
    if name in r.gates then (r, Change(name, next, r.Source(name), r.Generation(name), r.gates[name]))
    else
      var gates := if name in r.sources then r.gates[name := r.nextGate] else r.gates;
      (r.(gates := gates, nextGate := r.nextGate + 1),
       Change(name, next, r.Source(name), r.Generation(name), r.nextGate))
  }

  /** The first section of RemoveSource never stores the gate it makes up. */
  function SnapshotForRemoval(r: Registry, name: string): (Registry, Change) {
    if name in r.gates then (r, Change(name, None, r.Source(name), r.Generation(name), r.gates[name]))
    else (r.(nextGate := r.nextGate + 1), Change(name, None, r.Source(name), r.Generation(name), r.nextGate))
  }

  /** The committing section of Activate and of RemoveSource, run when the change still matches. */
  function Commit(r: Registry, c: Change): Registry {
    Registry(
      if c.next.Some? then r.sources[c.name := c.next.value.0] else r.sources - {c.name},
      if c.next.Some? then Replaced(r.infos, c.next.value.1) else Without(r.infos, c.name),
      r.generations[c.name := c.generation + 1],
      r.gates[c.name := c.gate],
      r.nextGate)
  }

  /** The gate lookup at the start of beginSourceEffects, which does store a missing gate. */
  function FindGate(r: Registry, name: string): (Registry, GateId) {
    if name in r.gates then (r, r.gates[name])
    else (r.(gates := r.gates[name := r.nextGate], nextGate := r.nextGate + 1), r.nextGate)
  }

  /** Replace the first entry with the same name, append when there is none. */
  function Replaced(infos: seq<SourceInfo>, info: SourceInfo): seq<SourceInfo> {
    if infos == [] then [info]
    else if infos[0].name == info.name then [info] + infos[1..]
    else [infos[0]] + Replaced(infos[1..], info)
  }

  /** Drop the first entry with the given name. */
  function Without(infos: seq<SourceInfo>, name: string): seq<SourceInfo> {
    if infos == [] then []
    else if infos[0].name == name then infos[1..]
    else [infos[0]] + Without(infos[1..], name)
  }

  /** Position of the first entry for a name, the length of the list when there is none. */
  function IndexOf(infos: seq<SourceInfo>, name: string): (k: nat)
    ensures k <= |infos|
    ensures k < |infos| ==> infos[k].name == name
  {
    if infos == [] || infos[0].name == name then 0 else 1 + IndexOf(infos[1..], name)
  }

  lemma {:induction false} FirstIndex(infos: seq<SourceInfo>, name: string, k: nat)
    requires k <= |infos|
    requires forall i | 0 <= i < k :: infos[i].name != name
    requires k < |infos| ==> infos[k].name == name
    ensures IndexOf(infos, name) == k
  {
    if k > 0 {
      FirstIndex(infos[1..], name, k - 1);
    }
  }

  lemma {:induction false} AbsentIndex(infos: seq<SourceInfo>, name: string)
    ensures IndexOf(infos, name) == |infos| <==> name !in Names(infos)
  {
    if infos != [] {
      AbsentIndex(infos[1..], name);
    }
  }

  lemma {:induction false} ReplacedAt(infos: seq<SourceInfo>, info: SourceInfo)
    ensures var k := IndexOf(infos, info.name);
      Replaced(infos, info) == infos[..k] + [info] + (if k < |infos| then infos[k+1..] else [])
  {
    if infos != [] && infos[0].name != info.name {
      ReplacedAt(infos[1..], info);
    }
  }

  lemma {:induction false} WithoutAt(infos: seq<SourceInfo>, name: string)
    ensures var k := IndexOf(infos, name);
      Without(infos, name) == infos[..k] + (if k < |infos| then infos[k+1..] else [])
  {
    if infos != [] && infos[0].name != name {
      var (tail, k) := (infos[1..], IndexOf(infos[1..], name));
      WithoutAt(tail, name);
      assert infos[..k + 1] == [infos[0]] + tail[..k];
      assert k < |tail| ==> tail[k + 1..] == infos[k + 2..];
    }
  }

  /** A name is listed exactly when some entry carries it. */
  lemma {:induction false} NamesAreEntries(infos: seq<SourceInfo>, name: string)
    ensures name in Names(infos) <==> exists i :: 0 <= i < |infos| && infos[i].name == name
  {
    if infos != [] {
      NamesAreEntries(infos[1..], name);
      if i :| 0 <= i < |infos[1..]| && infos[1..][i].name == name {
        assert infos[i + 1].name == name;
      }
      if i :| 0 <= i < |infos| && infos[i].name == name {
        assert i > 0 ==> infos[1..][i - 1].name == name;
      }
    }
  }

  lemma {:induction false} NamesAfterReplace(infos: seq<SourceInfo>, info: SourceInfo)
    requires DistinctNames(infos)
    ensures DistinctNames(Replaced(infos, info))
    ensures Names(Replaced(infos, info)) == Names(infos) + {info.name}
    ensures info in Replaced(infos, info)
  {
    if infos != [] && infos[0].name != info.name {
      NamesAfterReplace(infos[1..], info);
      assert Replaced(infos, info)[1..] == Replaced(infos[1..], info);
    }
  }

  lemma {:induction false} NamesAfterRemoval(infos: seq<SourceInfo>, name: string)
    requires DistinctNames(infos)
    ensures DistinctNames(Without(infos, name))
    ensures Names(Without(infos, name)) == Names(infos) - {name}
  {
    if infos != [] && infos[0].name != name {
      NamesAfterRemoval(infos[1..], name);
      assert Without(infos, name)[1..] == Without(infos[1..], name);
    }
  }

  lemma {:induction false} NamesAfterAppend(infos: seq<SourceInfo>, info: SourceInfo)
    ensures Names(infos + [info]) == Names(infos) + {info.name}
    ensures DistinctNames(infos) && info.name !in Names(infos) ==> DistinctNames(infos + [info])
  {
    if infos != [] {
      NamesAfterAppend(infos[1..], info);
      assert (infos + [info])[1..] == infos[1..] + [info];
    }
  }

  // ---- what the sections keep ----

  lemma PrepareKeepsValid(r: Registry, name: string, next: Option<(SourceId, SourceInfo)>)
    requires r.Valid()
    ensures var (r', c) := Prepare(r, name, next);
      c.name == name && c.next == next && (name !in r.gates ==> c.gate == r.nextGate) &&
      r'.Valid() && r'.Matches(c) && c.gate < r'.nextGate && r.nextGate <= r'.nextGate &&
      r' == r.(nextGate := r'.nextGate) &&
      (c.generation >= 1 ==> c.gate == r'.gates[name])
  {
  }

  lemma RemovalKeepsValid(r: Registry, name: string)
    requires r.Valid()
    ensures var (r', c) := SnapshotForRemoval(r, name);
      c.name == name && c.next == None && (name !in r.gates ==> c.gate == r.nextGate) &&
      r'.Valid() && r'.Matches(c) && c.gate < r'.nextGate && r.nextGate <= r'.nextGate &&
      r' == r.(nextGate := r'.nextGate) &&
      (c.generation >= 1 ==> c.gate == r'.gates[name])
  {
  }

  /** A name has one gate from the moment one is stored: a fetch that had to make it up, every later fetch, and every
      later change carry the same; and a change of a registered name stores the one it makes up. */
  lemma OneGate(r: Registry, name: string, next: Option<(SourceId, SourceInfo)>)
    ensures var (found, gate) := FindGate(r, name);
      && FindGate(found, name) == (found, gate)
      && Prepare(found, name, next).1.gate == SnapshotForRemoval(found, name).1.gate == gate
    ensures var (prepared, c) := Prepare(r, name, next);
      name in r.sources ==> FindGate(prepared, name) == (prepared, c.gate)
    ensures forall n | n != name ::
      (n in FindGate(r, name).0.gates <==> n in r.gates) && (n in r.gates ==> FindGate(r, name).0.gates[n] == r.gates[n])
  {
  }

  lemma CommitKeepsValid(r: Registry, c: Change)
    requires r.Valid() && r.Matches(c) && c.gate < r.nextGate
    requires c.next.Some? ==> c.next.value.1.name == c.name
    ensures Commit(r, c).Valid()
    ensures Commit(r, c).Source(c.name) == (if c.next.Some? then Some(c.next.value.0) else None)
    ensures Commit(r, c).Generation(c.name) == r.Generation(c.name) + 1
    ensures forall n | n != c.name ::
      Commit(r, c).Source(n) == r.Source(n) && Commit(r, c).Generation(n) == r.Generation(n)
    ensures Commit(r, c).gates == r.gates[c.name := c.gate] && Commit(r, c).nextGate == r.nextGate
  {
    CommitStaysValid(r, c);
  }

  /** The list without the entries of one name, in order. */
  function Others(infos: seq<SourceInfo>, name: string): seq<SourceInfo> {
    if infos == [] then []
    else if infos[0].name == name then Others(infos[1..], name)
    else [infos[0]] + Others(infos[1..], name)
  }

  lemma {:induction false} OthersOfAbsent(infos: seq<SourceInfo>, name: string)
    requires name !in Names(infos)
    ensures Others(infos, name) == infos
  {
    if infos != [] {
      OthersOfAbsent(infos[1..], name);
    }
  }

  lemma {:induction false} WithoutIsOthers(infos: seq<SourceInfo>, name: string)
    requires DistinctNames(infos)
    ensures Without(infos, name) == Others(infos, name)
  {
    if infos != [] {
      if infos[0].name == name {
        OthersOfAbsent(infos[1..], name);
      } else {
        WithoutIsOthers(infos[1..], name);
      }
    }
  }

  lemma {:induction false} ReplacedAtEach(infos: seq<SourceInfo>, info: SourceInfo)
    requires DistinctNames(infos)
    ensures var after := Replaced(infos, info);
      && |after| == |infos| + (if info.name in Names(infos) then 0 else 1)
      && (info.name !in Names(infos) ==> after[|infos|] == info)
      && forall i | 0 <= i < |infos| :: after[i] == if infos[i].name == info.name then info else infos[i]
  {
    if infos != [] {
      if infos[0].name == info.name {
        forall i | 0 < i < |infos| ensures infos[i].name != info.name {
          assert infos[1..][i - 1].name == infos[i].name;
          NamesAreEntries(infos[1..], info.name);
        }
      } else {
        ReplacedAtEach(infos[1..], info);
      }
    }
  }

  /** What a commit does to the scheduling list. An installed info stands where its name stood, or at the end if
      the name is new, and every other entry stays at its place; a removed name goes and the others close up. */
  lemma CommitListsItsInfo(r: Registry, c: Change)
    requires r.Valid() && (c.next.Some? ==> c.next.value.1.name == c.name)
    ensures var (before, after) := (r.infos, Commit(r, c).infos);
      match c.next
      case None => after == Others(before, c.name)
      case Some((_, info)) =>
        && |after| == |before| + (if c.name in r.sources then 0 else 1)
        && (c.name !in r.sources ==> after[|before|] == info)
        && (forall i | 0 <= i < |before| :: after[i] == if before[i].name == c.name then info else before[i])
  {
    match c.next
    case None => WithoutIsOthers(r.infos, c.name);
    case Some((_, info)) => ReplacedAtEach(r.infos, info);
  }

  /** What a trigger finds in a registry: the first info of the name. */
  function Trigger(r: Registry, running: bool, name: string): LookupResult {
    if !running then EngineStopped
    else if name !in r.sources || IndexOf(r.infos, name) == |r.infos| then Unknown
    else Found(r.sources[name], r.infos[IndexOf(r.infos, name)], r.Generation(name))
  }

  /** In a valid registry the info found is the only one of the name. */
  lemma TriggerFindsInfo(r: Registry, info: SourceInfo)
    requires r.Valid() && info in r.infos
    ensures info.name in r.sources
    ensures Trigger(r, true, info.name) == Found(r.sources[info.name], info, r.Generation(info.name))
  {
    EntryIsFirst(r.infos, info);
  }

  lemma {:induction false} EntryIsFirst(infos: seq<SourceInfo>, info: SourceInfo)
    requires DistinctNames(infos) && info in infos
    ensures info.name in Names(infos)
    ensures IndexOf(infos, info.name) < |infos| && infos[IndexOf(infos, info.name)] == info
  {
    if infos[0] != info {
      EntryIsFirst(infos[1..], info);
    }
  }

  /** A trigger finds what was committed, under the next generation, or nothing after a removal; what it finds
      of any other name has not changed. */
  ghost predicate FindsCommitted(before: Registry, after: Registry, c: Change) {
    && Trigger(after, true, c.name) ==
         (match c.next case None => Unknown case Some((src, info)) => Found(src, info, c.generation + 1))
    && forall n | n != c.name :: Trigger(after, true, n) == Trigger(before, true, n)
  }

  lemma TriggerAfterCommit(r: Registry, c: Change)
    requires r.Valid() && r.Matches(c) && c.gate < r.nextGate
    requires c.next.Some? ==> c.next.value.1.name == c.name
    ensures Commit(r, c).Valid() && FindsCommitted(r, Commit(r, c), c)
  {
    CommitStaysValid(r, c);
    if c.next.Some? {
      InstalledIsListed(r, c);
      TriggerFindsInfo(Commit(r, c), c.next.value.1);
    }
    forall n | n != c.name ensures Trigger(Commit(r, c), true, n) == Trigger(r, true, n) {
      if n in r.sources {
        OtherStaysListed(r, c, n);
      }
    }
  }

  lemma InstalledIsListed(r: Registry, c: Change)
    requires r.Valid() && c.next.Some? && c.next.value.1.name == c.name
    ensures c.next.value.1 in Commit(r, c).infos
  {
    NamesAfterReplace(r.infos, c.next.value.1);
  }

  lemma OtherStaysListed(r: Registry, c: Change, other: string)
    requires r.Valid() && Commit(r, c).Valid() && other != c.name && other in r.sources
    requires c.next.Some? ==> c.next.value.1.name == c.name
    ensures Trigger(Commit(r, c), true, other) == Trigger(r, true, other)
  {
    AbsentIndex(r.infos, other);
    var k := IndexOf(r.infos, other);
    var info := r.infos[k];
    CommitListsItsInfo(r, c);
    if c.next.Some? {
      assert Commit(r, c).infos[k] == info;
    } else {
      StaysAmongOthers(r.infos, c.name, info);
    }
    TriggerFindsInfo(Commit(r, c), info);
  }

  lemma {:induction false} StaysAmongOthers(infos: seq<SourceInfo>, name: string, info: SourceInfo)
    requires info in infos && info.name != name
    ensures info in Others(infos, name)
  {
    if infos[0] != info {
      StaysAmongOthers(infos[1..], name, info);
    }
  }

  lemma CommitStaysValid(r: Registry, c: Change)
    requires r.Valid() && r.Matches(c) && c.gate < r.nextGate
    requires c.next.Some? ==> c.next.value.1.name == c.name
    ensures Commit(r, c).Valid()
  {
    if c.next.Some? {
      NamesAfterReplace(r.infos, c.next.value.1);
    } else {
      NamesAfterRemoval(r.infos, c.name);
    }
  }

  // ---- the engine object ----

  /** What a trigger finds. */
  datatype LookupResult = EngineStopped | Unknown | Found(source: SourceId, info: SourceInfo, generation: nat)

  /** The registry NewNewsEngine builds: every configured source at generation 1 behind its own gate. */
  function Configured(sources: seq<(SourceId, SourceInfo)>): Registry {
    if sources == [] then Registry(map[], [], map[], map[], 0)
    else
      var r := Configured(sources[..|sources| - 1]);
      var (src, info) := sources[|sources| - 1];
      Registry(r.sources[info.name := src], r.infos + [info], r.generations[info.name := 1],
        r.gates[info.name := r.nextGate], r.nextGate + 1)
  }

  ghost predicate DistinctSources(sources: seq<(SourceId, SourceInfo)>) {
    forall i, j | 0 <= i < j < |sources| :: sources[i].1.name != sources[j].1.name
  }

  lemma {:induction false} ConfiguredEntries(sources: seq<(SourceId, SourceInfo)>)
    ensures Configured(sources).sources.Keys == Names(Configured(sources).infos)
    ensures forall k | 0 <= k < |sources| :: sources[k].1 in Configured(sources).infos
  {
    if sources != [] {
      var (front, last) := (sources[..|sources| - 1], sources[|sources| - 1].1);
      ConfiguredEntries(front);
      NamesAfterAppend(Configured(front).infos, last);
      forall k | 0 <= k < |sources| ensures sources[k].1 in Configured(sources).infos {
        assert k < |front| ==> sources[k] == front[k];
      }
    }
  }

  /** Every configured source is registered, and nothing else. */
  lemma {:induction false} ConfiguredNames(sources: seq<(SourceId, SourceInfo)>, n: string)
    ensures n in Configured(sources).sources <==> exists i :: 0 <= i < |sources| && sources[i].1.name == n
  {
    if sources != [] {
      var (front, last) := (sources[..|sources| - 1], |sources| - 1);
      ConfiguredNames(front, n);
      if n in Configured(front).sources {
        var i :| 0 <= i < |front| && front[i].1.name == n;
        assert sources[i].1.name == n;
      }
      if i :| 0 <= i < |sources| && sources[i].1.name == n && i < last {
        assert front[i].1.name == n;
      }
      assert sources[last].1.name == n ==> exists i :: 0 <= i < |sources| && sources[i].1.name == n;
    }
  }

  lemma {:induction false} ConfiguredIsValid(sources: seq<(SourceId, SourceInfo)>)
    requires DistinctSources(sources)
    ensures Configured(sources).Valid()
    ensures forall n :: Configured(sources).Generation(n) == (if n in Configured(sources).sources then 1 else 0)
  {
    if sources != [] {
      var last := |sources| - 1;
      var front := sources[..last];
      var r := Configured(front);
      ConfiguredIsValid(front);
      NamesAfterAppend(r.infos, sources[last].1);
      ConfiguredEntries(front);
      ConfiguredNames(front, sources[last].1.name);
    }
  }

  lemma {:induction false} ConfiguredSources(sources: seq<(SourceId, SourceInfo)>, i: nat)
    requires DistinctSources(sources) && i < |sources|
    ensures sources[i].1.name in Configured(sources).sources
    ensures Configured(sources).sources[sources[i].1.name] == sources[i].0
  {
    if i < |sources| - 1 {
      ConfiguredSources(sources[..|sources| - 1], i);
    }
  }

  /** In a configured engine a trigger finds each source with its own info, at generation 1. */
  lemma ConfiguredIsFound(sources: seq<(SourceId, SourceInfo)>, i: nat)
    requires DistinctSources(sources) && i < |sources|
    ensures Trigger(Configured(sources), true, sources[i].1.name) == Found(sources[i].0, sources[i].1, 1)
  {
    ConfiguredIsValid(sources);
    ConfiguredEntries(sources);
    ConfiguredSources(sources, i);
    TriggerFindsInfo(Configured(sources), sources[i].1);
  }

  lemma NamesFrom(infos: seq<SourceInfo>, i: nat)
    requires i < |infos|
    ensures Names(infos[i..]) == {infos[i].name} + Names(infos[i + 1..])
  {
    assert infos[i..][1..] == infos[i + 1..];
  }

  class NewsEngine {
    var sources: map<string, SourceId>
    var sourceInfos: seq<SourceInfo>
    var sourceGenerations: map<string, nat>
    var sourceGates: map<string, GateId>
    var allocatedGates: GateId
    var running: bool
    /** The names with a scheduling goroutine. */
    var sourceCancels: set<string>

    ghost function Model(): Registry
      reads this
    {
      Registry(sources, sourceInfos, sourceGenerations, sourceGates, allocatedGates)
    }

    constructor (configured: seq<(SourceId, SourceInfo)>)
      ensures Model() == Configured(configured)
      ensures DistinctSources(configured) ==> Model().Valid()
      ensures !running && sourceCancels == {}
    {
      sources, sourceInfos, sourceGenerations, sourceGates, allocatedGates := map[], [], map[], map[], 0;
      running, sourceCancels := false, {};
      new;
      for i := 0 to |configured|
        invariant !running && sourceCancels == {}
        invariant Model() == Configured(configured[..i])
      {
        var (src, info) := configured[i];
        assert configured[..i + 1][..i] == configured[..i];
        sources := sources[info.name := src];
        sourceGenerations := sourceGenerations[info.name := 1];
        sourceGates := sourceGates[info.name := allocatedGates];
        allocatedGates := allocatedGates + 1;
        sourceInfos := sourceInfos + [info];
      }
      assert configured[..|configured|] == configured;
      if DistinctSources(configured) {
        ConfiguredIsValid(configured);
      }
    }

    /** The section of Start that schedules every source. */
    method Start()
      modifies this`running, this`sourceCancels
      ensures running && sourceCancels == Names(sourceInfos)
    {
      running, sourceCancels := true, {};
      for i := 0 to |sourceInfos|
        invariant running && sourceCancels + Names(sourceInfos[i..]) == Names(sourceInfos)
      {
        NamesFrom(sourceInfos, i);
        sourceCancels := sourceCancels + {sourceInfos[i].name};
      }
    }

    /** The section of PrepareSourceChange that reads the registry. */
    method PrepareSourceChange(name: string, next: Option<(SourceId, SourceInfo)>) returns (change: Change)
      modifies this`sourceGates, this`allocatedGates
      ensures (Model(), change) == Prepare(old(Model()), name, next)
    {
      var gate;
      if name in sourceGates {
        gate := sourceGates[name];
      } else {
        gate := allocatedGates;
        allocatedGates := allocatedGates + 1;
        if name in sources {
          sourceGates := sourceGates[name := gate];
        }
      }
      var current := if name in sources then Some(sources[name]) else None;
      var generation := if name in sourceGenerations then sourceGenerations[name] else 0;
      change := Change(name, next, current, generation, gate);
    }

    /** The section of RemoveSource that reads the registry. */
    method BeginRemoval(name: string) returns (change: Change)
      modifies this`allocatedGates
      ensures (Model(), change) == SnapshotForRemoval(old(Model()), name)
    {
      var gate;
      if name in sourceGates {
        gate := sourceGates[name];
      } else {
        gate := allocatedGates;
        allocatedGates := allocatedGates + 1;
      }
      var current := if name in sources then Some(sources[name]) else None;
      var generation := if name in sourceGenerations then sourceGenerations[name] else 0;
      change := Change(name, None, current, generation, gate);
    }

    /** The loop over the scheduling list in Activate, RemoveSource, TriggerSource and FetchOnly. */
    method FindInfo(name: string) returns (position: nat)
      ensures position == IndexOf(sourceInfos, name)
    {
      position := 0;
      while position < |sourceInfos| && sourceInfos[position].name != name
        invariant 0 <= position <= |sourceInfos|
        invariant forall i | 0 <= i < position :: sourceInfos[i].name != name
      {
        position := position + 1;
      }
      FirstIndex(sourceInfos, name, position);
    }

    /** The section of Activate and RemoveSource that runs under the change's gate. The goroutine of the old
        source goes; the new one gets one in a running engine if it is new or the old one had one. */
    method CommitChange(change: Change) returns (ok: bool)
      requires change.next.Some? ==> change.next.value.1.name == change.name
      modifies this
      ensures running == old(running)
      ensures forall n | n != change.name || !ok :: n in sourceCancels <==> n in old(sourceCancels)
      ensures ok ==> (change.name in sourceCancels <==>
        change.next.Some? && running && (change.previous.None? || change.name in old(sourceCancels)))
      ensures ok == old(Model()).Matches(change)
      ensures Model() == if ok then Commit(old(Model()), change) else old(Model())
      ensures ok && old(Model()).Valid() && change.gate < allocatedGates ==>
        Model().Valid() && FindsCommitted(old(Model()), Model(), change)
    {
      var name := change.name;
      var current := if name in sources then Some(sources[name]) else None;
      var generation := if name in sourceGenerations then sourceGenerations[name] else 0;
      if current != change.previous || generation != change.generation {
        return false;
      }
      Reschedule(change);
      CommitRegistry(change);
      ok := true;
    }

    method Reschedule(change: Change)
      modifies this`sourceCancels
      ensures forall n | n != change.name :: n in sourceCancels <==> n in old(sourceCancels)
      ensures change.name in sourceCancels <==>
        change.next.Some? && running && (change.previous.None? || change.name in old(sourceCancels))
    {
      var wasScheduled := change.name in sourceCancels;
      sourceCancels := sourceCancels - {change.name};
      if change.next.Some? && running && (change.previous.None? || wasScheduled) {
        sourceCancels := sourceCancels + {change.name};
      }
    }

    method CommitRegistry(change: Change)
      requires change.next.Some? ==> change.next.value.1.name == change.name
      requires Model().Matches(change)
      modifies this`sources, this`sourceInfos, this`sourceGenerations, this`sourceGates
      ensures Model() == Commit(old(Model()), change)
      ensures old(Model()).Valid() && change.gate < allocatedGates ==>
        Model().Valid() && FindsCommitted(old(Model()), Model(), change)
    {
      ghost var before := Model();
      WriteRegistry(change);
      if before.Valid() && change.gate < allocatedGates {
        TriggerAfterCommit(before, change);
      }
    }

    /** What a commit does to the maps and the scheduling list. */
    method WriteRegistry(change: Change)
      requires change.next.Some? ==> change.next.value.1.name == change.name
      requires Model().Matches(change)
      modifies this`sources, this`sourceInfos, this`sourceGenerations, this`sourceGates
      ensures Model() == Commit(old(Model()), change)
    {
      var name := change.name;
      sourceGenerations := sourceGenerations[name := change.generation + 1];
      sourceGates := sourceGates[name := change.gate];
      var position := FindInfo(name);
      if change.next.Some? {
        var (src, info) := change.next.value;
        ReplacedAt(sourceInfos, info);
        sources := sources[name := src];
        sourceInfos := sourceInfos[..position] + [info] +
          (if position < |sourceInfos| then sourceInfos[position+1..] else []);
      } else {
        WithoutAt(sourceInfos, name);
        sources := sources - {name};
        sourceInfos := sourceInfos[..position] +
          (if position < |sourceInfos| then sourceInfos[position+1..] else []);
      }
    }

    method IsCurrentSource(name: string, source: SourceId, generation: nat) returns (current: bool)
      ensures current == Model().IsCurrent(name, source, generation)
    {
      current := name in sources && sources[name] == source &&
        (if name in sourceGenerations then sourceGenerations[name] else 0) == generation;
    }

    /** The first section of beginSourceEffects. */
    method GateFor(name: string) returns (gate: GateId)
      modifies this`sourceGates, this`allocatedGates
      ensures (Model(), gate) == FindGate(old(Model()), name)
    {
      if name in sourceGates {
        gate := sourceGates[name];
      } else {
        gate := allocatedGates;
        allocatedGates := allocatedGates + 1;
        sourceGates := sourceGates[name := gate];
      }
    }

    /** The lookup of TriggerSource and FetchOnly; a stopped engine refuses. In a valid registry it otherwise
        fails only for an unknown name: the "source info not found" answer is never given. */
    method Lookup(name: string) returns (found: LookupResult)
      ensures found == Trigger(Model(), running, name)
      ensures running && Model().Valid() ==> (found.Found? <==> name in sources)
    {
      if !running {
        return EngineStopped;
      }
      if name !in sources {
        return Unknown;
      }
      var i := FindInfo(name);
      AbsentIndex(sourceInfos, name);
      if i == |sourceInfos| {
        return Unknown;
      }
      found := Found(sources[name], sourceInfos[i],
        if name in sourceGenerations then sourceGenerations[name] else 0);
    }
  }
}
