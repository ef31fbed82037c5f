/**
 The configuration manager: one file that other processes may also write, and in memory the raw and the
 expanded configuration, the fingerprint of the bytes both came from, and a revision counter.
 Everything a library or the operating system decides is a parameter: the codec below and, for each call,
 whether its file operations succeed.
 */
module ConfigManager {
  import opened Options
  import opened EnvReferences

  type Bytes = string
  type Fingerprint = string

  datatype Error = Unreadable | Malformed | Invalid | Conflict | NotFound | WriteFailed

  datatype Outcome<T> = Ok(value: T) | Err(error: Error)

  datatype Codec = Codec(
    decode: Bytes -> Option<Config>,
    encode: Config -> Bytes,
    hash: Bytes -> Fingerprint,
    expand: Expander,
    deliveryOk: Source -> bool)
  {
    /** What is assumed of the libraries: marshalling round trips, hashes do not collide, and expansion
        leaves dollar-free text alone. */
    ghost predicate Sound() {
      && (forall c {:trigger encode(c)} :: decode(encode(c)) == Some(c))
      && (forall a, b {:trigger hash(a), hash(b)} :: hash(a) == hash(b) ==> a == b)
      && PlainIsFixed(expand)
    }
  }

  const MAX_NEWS_ITEMS := 10000
  const MAX_NEWS_TTL := 365 * 24 * 60 * 60

  /** The defaults that interact with validation and with the edits below. */
  function SetDefaults(c: Config): Config {
    c.(channels := seq(|c.channels|, i requires 0 <= i < |c.channels| => ChannelDefaults(c.channels[i])),
       sources := seq(|c.sources|, i requires 0 <= i < |c.sources| => SourceDefaults(c.sources[i])),
       newsMaxItems := if c.newsMaxItems == 0 then 1000 else c.newsMaxItems,
       newsTtl := if c.newsTtl == 0 then 7 * 24 * 60 * 60 else c.newsTtl)
  }

  function ChannelDefaults(c: Channel): Channel {
    if c.mode == "" then c.(mode := "push") else c
  }

  function SourceDefaults(s: Source): Source {
    s.(interval := if s.interval <= 0 && s.schedule == [] then 120 else s.interval,
       deliveryMode := if !s.routed && s.deliveryMode == "" then "direct" else s.deliveryMode)
  }

  ghost predicate Validated(codec: Codec, c: Config) {
    && 0 < c.newsMaxItems <= MAX_NEWS_ITEMS
    && 0 < c.newsTtl <= MAX_NEWS_TTL
    && (forall i | 0 <= i < |c.sources| :: c.sources[i].name != "" && codec.deliveryOk(c.sources[i]))
    && DistinctSources(c.sources)
  }

  /** Validate walks the sources with the set of names seen so far. */
  method Validate(codec: Codec, c: Config) returns (ok: bool)
    ensures ok <==> Validated(codec, c)
  {
    if c.newsMaxItems <= 0 || c.newsMaxItems > MAX_NEWS_ITEMS || c.newsTtl <= 0 || c.newsTtl > MAX_NEWS_TTL {
      return false;
    }
    var seen: set<string> := {};
    for i := 0 to |c.sources|
      invariant seen == set j | 0 <= j < i :: c.sources[j].name
      invariant forall j | 0 <= j < i :: c.sources[j].name != "" && codec.deliveryOk(c.sources[j])
      invariant forall j, k | 0 <= j < k < i :: c.sources[j].name != c.sources[k].name
    {
      var s := c.sources[i];
      if s.name == "" {
        return false;
      }
      if s.name in seen {
        return false;
      }
      seen := seen + {s.name};
      if !codec.deliveryOk(s) {
        return false;
      }
    }
    ok := true;
  }

  /** parsePlatformBytes: the raw and the live configuration of a byte string. */
  ghost function Parse(codec: Codec, b: Bytes): Option<(Config, Config)> {
    match codec.decode(b)
    case None => None
    case Some(c) =>
      var raw := SetDefaults(c);
      var live := ExpandConfig(codec.expand, raw);
      if Validated(codec, raw) && Validated(codec, live) then Some((raw, live)) else None
  }

  datatype Manager = Manager(
    disk: Option<Bytes>,
    live: Config,
    raw: Config,
    fingerprint: Fingerprint,
    revision: nat)

  /** Memory mirrors one byte string; the disk may hold another. */
  ghost predicate Mirrors(codec: Codec, m: Manager, b: Bytes) {
    Parse(codec, b) == Some((m.raw, m.live)) && codec.hash(b) == m.fingerprint
  }

  ghost predicate Coherent(codec: Codec, m: Manager) {
    exists b :: Mirrors(codec, m, b)
  }

  // ---- the sections under the manager's mutex ----

  function Swap(m: Manager, raw: Config, live: Config, fingerprint: Fingerprint): Manager {
    m.(raw := raw, live := live, fingerprint := fingerprint, revision := m.revision + 1)
  }

  /** persistBytesLocked; `writable` is false when the temporary file or the rename fails. The fingerprint
      check and the rename are one step here. */
  function PersistBytes(codec: Codec, m: Manager, data: Bytes, raw: Config, live: Config, writable: bool): Outcome<Manager> {
    if !writable then Err(WriteFailed)
    else if m.disk.None? then Err(Unreadable)
    else if codec.hash(m.disk.value) != m.fingerprint then Err(Conflict)
    else Ok(Swap(m.(disk := Some(data)), raw, live, codec.hash(data)))
  }

  ghost function Persist(codec: Codec, m: Manager, next: Config, writable: bool): Outcome<Manager> {
    var data := codec.encode(PreserveConfig(next, m.raw, m.live));
    match Parse(codec, data)
    case None => Err(Invalid)
    case Some((raw, live)) => PersistBytes(codec, m, data, raw, live, writable)
  }

  /** The locked half of Reload, given the bytes read before the lock was taken. */
  ghost function FinishReload(codec: Codec, m: Manager, read: Bytes): Outcome<Manager> {
    match Parse(codec, read)
    case None => Err(Invalid)
    case Some((raw, live)) =>
      if m.disk.None? then Err(Unreadable)
      else if codec.hash(m.disk.value) != codec.hash(read) then Err(Conflict)
      else Ok(Swap(m, raw, live, codec.hash(read)))
  }

  /** CommitPreview: the file is read three times while other processes may write it. */
  ghost function CommitPreview(codec: Codec, m: Manager, preview: Fingerprint, revision: nat, looks: (Bytes, Bytes, Bytes)): Outcome<Manager> {
    if m.revision != revision then Err(Conflict)
    else if preview == "" || codec.hash(looks.0) != preview then Err(Conflict)
    else
      match Parse(codec, looks.1)
      case None => Err(Invalid)
      case Some((raw, live)) =>
        if codec.hash(looks.1) != codec.hash(looks.0) || codec.hash(looks.2) != codec.hash(looks.1) then Err(Conflict)
        else Ok(Swap(m, raw, live, codec.hash(looks.1)))
  }

  /** The edit of UpdateSourceWithRuntime: the first source of that name is replaced. */
  function ReplaceSource(c: Config, name: string, s: Source): Option<Config> {
    var i := SourceIndex(c.sources, name);
    if i == |c.sources| then None
    else
      var kept := s.(name := name, enabled := if s.enabled.None? then c.sources[i].enabled else s.enabled);
      Some(c.(sources := c.sources[i := kept]))
  }

  /** The edit of RemoveSourceWithRuntime. */
  function DropSource(c: Config, name: string): Option<Config> {
    var i := SourceIndex(c.sources, name);
    if i == |c.sources| then None else Some(c.(sources := c.sources[..i] + c.sources[i + 1..]))
  }

  function SourceIndex(ss: seq<Source>, name: string): (i: nat)
    ensures i <= |ss|
    ensures i < |ss| ==> ss[i].name == name
    ensures forall j | 0 <= j < i :: ss[j].name != name
  {
    if ss == [] || ss[0].name == name then 0 else 1 + SourceIndex(ss[1..], name)
  }

  datatype Edit = Replace(name: string, source: Source) | Drop(name: string)

  function Edited(c: Config, edit: Edit): Option<Config> {
    match edit
    case Replace(name, s) => ReplaceSource(c, name, s)
    case Drop(name) => DropSource(c, name)
  }

  /** Position i holds the first source of the name. */
  predicate FirstNamed(ss: seq<Source>, name: string, i: nat) {
    i < |ss| && ss[i].name == name && forall j | 0 <= j < i :: ss[j].name != name
  }

  /** The edited configuration differs in its sources only: dropping takes the first of the name out and closes
      the gap; replacing puts the given source in its place, under the same name, and enabled as before if the
      given one does not say. */
  ghost predicate EditMeans(c: Config, edit: Edit, after: Config, i: nat) {
    && FirstNamed(c.sources, edit.name, i)
    && after == c.(sources := after.sources)
    && match edit
       case Drop(_) =>
         && |after.sources| == |c.sources| - 1
         && (forall j | 0 <= j < |after.sources| :: after.sources[j] == c.sources[if j < i then j else j + 1])
       case Replace(name, s) =>
         && |after.sources| == |c.sources|
         && (forall j | 0 <= j < |c.sources| && j != i :: after.sources[j] == c.sources[j])
         && after.sources[i].name == name
         && after.sources[i].enabled == (if s.enabled.Some? then s.enabled else c.sources[i].enabled)
         && after.sources[i].(name := s.name, enabled := s.enabled) == s
  }

  ghost predicate EditOf(c: Config, edit: Edit, after: Config) {
    exists i: nat :: EditMeans(c, edit, after, i)
  }

  /** An edit fails exactly if no source has the name, and otherwise does what it says. */
  lemma EditedAsMeant(c: Config, edit: Edit)
    ensures Edited(c, edit).None? <==> forall s | s in c.sources :: s.name != edit.name
    ensures Edited(c, edit).Some? ==> EditOf(c, edit, Edited(c, edit).value)
  {
    var i := SourceIndex(c.sources, edit.name);
    if i == |c.sources| {
      forall s | s in c.sources ensures s.name != edit.name {
        var j :| 0 <= j < |c.sources| && c.sources[j] == s;
      }
    } else {
      assert c.sources[i] in c.sources;
      assert EditMeans(c, edit, Edited(c, edit).value, i);
    }
  }

  /** What the first section of a runtime mutation keeps for the second. */
  datatype Ticket = Ticket(data: Bytes, raw: Config, live: Config, revision: nat, fingerprint: Fingerprint)

  /** The first locked section of UpdateSourceWithRuntime and RemoveSourceWithRuntime. */
  ghost function Begin(codec: Codec, m: Manager, edit: Edit, writable: bool): Outcome<(Manager, Ticket)> {
    if m.disk.None? then Err(Unreadable)
    else if codec.hash(m.disk.value) != m.fingerprint then Err(Conflict)
    else
      match Parse(codec, m.disk.value)
      case None => Err(Malformed)
      case Some((raw, live)) =>
        match Edited(m.live, edit)
        case None => Err(NotFound)
        case Some(edited) =>
          var next := SetDefaults(edited);
          if !Validated(codec, next) then Err(Invalid)
          else
            match Persist(codec, m, next, writable)
            case Err(e) => Err(e)
            case Ok(m') => Ok((m', Ticket(m.disk.value, raw, live, m'.revision, m'.fingerprint)))
  }

  /** The section after a failed runtime step; the result's error is the rollback error. */
  function Rollback(codec: Codec, m: Manager, t: Ticket, writable: bool): Outcome<Manager> {
    if m.revision != t.revision || m.fingerprint != t.fingerprint then Err(Conflict)
    else PersistBytes(codec, m, t.data, t.raw, t.live, writable)
  }

  // ---- what each section keeps ----

  lemma MirrorsIsUnique(codec: Codec, m: Manager, b: Bytes, d: Bytes)
    requires codec.Sound() && Mirrors(codec, m, b) && codec.hash(d) == m.fingerprint
    ensures d == b
  {
  }

  lemma {:induction false} DefaultsAreIdempotent(c: Config)
    ensures SetDefaults(SetDefaults(c)) == SetDefaults(c)
  {
    var d := SetDefaults(c);
    assert SetDefaults(d).channels == d.channels;
    assert SetDefaults(d).sources == d.sources;
  }

  predicate CompleteChannel(c: Channel) {
    c.mode != ""
  }

  predicate CompleteSource(s: Source) {
    (0 < s.interval || s.schedule != []) && (s.routed || s.deliveryMode != "")
  }

  /** No gap is left that a default would fill. */
  predicate Complete(c: Config) {
    && (forall x | x in c.channels :: CompleteChannel(x)) && (forall x | x in c.sources :: CompleteSource(x))
    && c.newsMaxItems != 0 && c.newsTtl != 0
  }

  lemma ChannelGaps(c: Channel)
    ensures CompleteChannel(ChannelDefaults(c)) && (ChannelDefaults(c) == c <==> CompleteChannel(c))
    ensures !CompleteChannel(c) ==> ChannelDefaults(c) == c.(mode := "push")
  {
  }

  lemma SourceGaps(s: Source)
    ensures var d := SourceDefaults(s);
      && CompleteSource(d) && (d == s <==> CompleteSource(s))
      && d == s.(interval := d.interval, deliveryMode := d.deliveryMode)
      && (d.interval != s.interval ==> s.interval <= 0 && s.schedule == [] && d.interval == 120)
      && (d.deliveryMode != s.deliveryMode ==> !s.routed && s.deliveryMode == "" && d.deliveryMode == "direct")
  {
  }

  /** Defaults leave no gap, and change nothing exactly where there is none: entry by entry, in place. */
  lemma DefaultsFillGaps(c: Config)
    ensures var d := SetDefaults(c);
      && Complete(d) && (d == c <==> Complete(c))
      && |d.channels| == |c.channels| && |d.sources| == |c.sources|
      && (forall i | 0 <= i < |c.channels| :: d.channels[i] == ChannelDefaults(c.channels[i]))
      && (forall i | 0 <= i < |c.sources| :: d.sources[i] == SourceDefaults(c.sources[i]))
      && d == c.(channels := d.channels, sources := d.sources, newsMaxItems := d.newsMaxItems, newsTtl := d.newsTtl)
      && (c.newsMaxItems == 0 ==> d.newsMaxItems == 1000) && (c.newsTtl == 0 ==> d.newsTtl == 604800)
  {
    var d := SetDefaults(c);
    forall x | x in d.channels ensures CompleteChannel(x) {
      var i :| 0 <= i < |d.channels| && d.channels[i] == x;
      ChannelGaps(c.channels[i]);
    }
    forall x | x in d.sources ensures CompleteSource(x) {
      var i :| 0 <= i < |d.sources| && d.sources[i] == x;
      SourceGaps(c.sources[i]);
    }
    if Complete(c) {
      forall i | 0 <= i < |c.channels| ensures d.channels[i] == c.channels[i] {
        assert c.channels[i] in c.channels;
      }
      forall i | 0 <= i < |c.sources| ensures d.sources[i] == c.sources[i] {
        assert c.sources[i] in c.sources;
      }
      assert d.channels == c.channels && d.sources == c.sources;
    }
  }

  /** A reload succeeds exactly if the bytes read are valid and still those of the file, and then memory mirrors
      them; the file is left alone. */
  lemma ReloadTakesFile(codec: Codec, m: Manager, read: Bytes)
    requires codec.Sound()
    ensures var r := FinishReload(codec, m, read);
      && (r.Ok? <==> Parse(codec, read).Some? && m.disk == Some(read))
      && (r == Err(Invalid) <==> Parse(codec, read).None?)
      && (r == Err(Conflict) ==> m.disk.Some? && m.disk != Some(read)) && (r == Err(Unreadable) ==> m.disk.None?)
      && (r.Ok? ==> Mirrors(codec, r.value, read) && r.value.disk == m.disk && r.value.revision == m.revision + 1)
  {
  }

  /** A previewed reload is committed exactly if nothing was committed since, and the file has the previewed bytes
      on all three looks. */
  lemma PreviewCommitsIff(codec: Codec, m: Manager, preview: Bytes, revision: nat, looks: (Bytes, Bytes, Bytes))
    requires codec.Sound() && codec.hash(preview) != ""
    ensures var r := CommitPreview(codec, m, codec.hash(preview), revision, looks);
      && (r.Ok? <==> m.revision == revision && looks == (preview, preview, preview) && Parse(codec, preview).Some?)
      && (r.Ok? ==> Mirrors(codec, r.value, preview) && r.value.disk == m.disk && r.value.revision == m.revision + 1)
  {
  }

  /** A write happens exactly if the file still has the bytes memory came from, the outcome is valid, and the file
      can be written: bytes of another process are never overwritten. */
  lemma PersistsIff(codec: Codec, m: Manager, b: Bytes, next: Config, writable: bool)
    requires codec.Sound() && Mirrors(codec, m, b)
    ensures Persist(codec, m, next, writable).Ok? <==>
      writable && m.disk == Some(b) && Parse(codec, codec.encode(PreserveConfig(next, m.raw, m.live))).Some?
    ensures Persist(codec, m, next, writable) == Err(Invalid) <==>
      Parse(codec, codec.encode(PreserveConfig(next, m.raw, m.live))).None?
    ensures Persist(codec, m, next, writable) == Err(Conflict) ==> writable && m.disk.Some? && m.disk != Some(b)
    ensures Persist(codec, m, next, writable) == Err(Unreadable) ==> writable && m.disk.None?
    ensures Persist(codec, m, next, writable) == Err(WriteFailed) ==> !writable
  {
  }

  /** A mutation begins exactly if, besides, a source has the name and the edit with its defaults is valid. */
  lemma MutationBeginsIff(codec: Codec, m: Manager, b: Bytes, edit: Edit, writable: bool)
    requires codec.Sound() && Mirrors(codec, m, b)
    ensures Begin(codec, m, edit, writable).Ok? <==>
      && m.disk == Some(b) && writable
      && Edited(m.live, edit).Some?
      && var next := SetDefaults(Edited(m.live, edit).value);
      && Validated(codec, next) && Parse(codec, codec.encode(PreserveConfig(next, m.raw, m.live))).Some?
  {
    if Edited(m.live, edit).Some? {
      PersistsIff(codec, m, b, SetDefaults(Edited(m.live, edit).value), writable);
    }
  }

  lemma DefaultsIgnoreReferences(next: Config, raw: Config, live: Config)
    requires SetDefaults(next) == next
    ensures SetDefaults(PreserveConfig(next, raw, live)) == PreserveConfig(next, raw, live)
  {
    var p := PreserveConfig(next, raw, live);
    forall i | 0 <= i < |p.channels| ensures ChannelDefaults(p.channels[i]) == p.channels[i] {
      assert SetDefaults(next).channels[i] == next.channels[i];
    }
    forall i | 0 <= i < |p.sources| ensures SourceDefaults(p.sources[i]) == p.sources[i] {
      assert SetDefaults(next).sources[i] == next.sources[i];
    }
    assert SetDefaults(p).channels == p.channels;
    assert SetDefaults(p).sources == p.sources;
  }

  /** A successful write of an edit: the file holds it with its references restored, memory mirrors the file,
      and the live copy is the edit exactly when the edit is stable under expansion. */
  lemma PersistGivesEdit(codec: Codec, m: Manager, next: Config, writable: bool)
    requires codec.Sound() && Coherent(codec, m) && SetDefaults(next) == next
    requires Persist(codec, m, next, writable).Ok?
    ensures var m' := Persist(codec, m, next, writable).value;
      && m'.disk == Some(codec.encode(PreserveConfig(next, m.raw, m.live)))
      && Mirrors(codec, m', m'.disk.value)
      && m'.raw == PreserveConfig(next, m.raw, m.live)
      && m'.revision == m.revision + 1
      && (m'.live == next <==> StableConfig(codec.expand, next, m.raw))
      && (PlainConfig(next) ==> m'.live == next)
  {
    var p := PreserveConfig(next, m.raw, m.live);
    assert codec.decode(codec.encode(p)) == Some(p);
    DefaultsIgnoreReferences(next, m.raw, m.live);
    ConfigEditSurvives(codec.expand, next, m.raw);
    if PlainConfig(next) {
      PlainEditSurvives(codec.expand, next, m.raw);
    }
  }

  /** What rolls back are the exact bytes and configurations of before. */
  lemma TicketIsSnapshot(codec: Codec, m: Manager, edit: Edit, writable: bool)
    requires codec.Sound() && Coherent(codec, m)
    ensures Begin(codec, m, edit, writable).Ok? ==>
      var (m', t) := Begin(codec, m, edit, writable).value;
      && m.disk == Some(t.data) && t.raw == m.raw && t.live == m.live && codec.hash(t.data) == m.fingerprint
      && t.revision == m'.revision == m.revision + 1
      && m'.disk.Some? && t.fingerprint == m'.fingerprint == codec.hash(m'.disk.value)
  {
    if Begin(codec, m, edit, writable).Ok? {
      var b :| Mirrors(codec, m, b);
      MirrorsIsUnique(codec, m, b, m.disk.value);
    }
  }

  // ---- whole histories ----

  type ActorId = nat

  datatype State = State(m: Manager, reloading: map<ActorId, Bytes>, pending: map<ActorId, Ticket>)

  datatype Action =
    | WriteOutside(contents: Option<Bytes>)
    | EditInside(next: Config, writable: bool)
    | ReadForReload(actor: ActorId)
    | Reload(actor: ActorId)
    | Preview(preview: Fingerprint, revision: nat, looks: (Bytes, Bytes, Bytes))
    | BeginMutation(actor: ActorId, edit: Edit, writable: bool)
    | RuntimeSucceeded(actor: ActorId)
    | RuntimeFailed(actor: ActorId, writable: bool)

  ghost predicate Enabled(s: State, action: Action) {
    match action
    case WriteOutside(_) => true
    case EditInside(_, _) => true
    case ReadForReload(a) => a !in s.reloading && s.m.disk.Some?
    case Reload(a) => a in s.reloading
    case Preview(_, _, _) => true
    case BeginMutation(a, _, _) => a !in s.pending
    case RuntimeSucceeded(a) => a in s.pending
    case RuntimeFailed(a, _) => a in s.pending
  }

  function Keep(m: Manager, r: Outcome<Manager>): Manager {
    match r case Ok(m') => m' case Err(_) => m
  }

  ghost function Apply(codec: Codec, s: State, action: Action): State
    requires Enabled(s, action)
  {
    match action
    case WriteOutside(contents) => s.(m := s.m.(disk := contents))
    case EditInside(next, writable) => s.(m := Keep(s.m, Persist(codec, s.m, next, writable)))
    case ReadForReload(a) => s.(reloading := s.reloading[a := s.m.disk.value])
    case Reload(a) =>
      s.(m := Keep(s.m, FinishReload(codec, s.m, s.reloading[a])), reloading := s.reloading - {a})
    case Preview(preview, revision, looks) => s.(m := Keep(s.m, CommitPreview(codec, s.m, preview, revision, looks)))
    case BeginMutation(a, edit, writable) =>
      (match Begin(codec, s.m, edit, writable)
       case Err(_) => s
       case Ok((m', t)) => s.(m := m', pending := s.pending[a := t]))
    case RuntimeSucceeded(a) => s.(pending := s.pending - {a})
    case RuntimeFailed(a, writable) =>
      s.(m := Keep(s.m, Rollback(codec, s.m, s.pending[a], writable)), pending := s.pending - {a})
  }

  ghost predicate IsRun(codec: Codec, states: seq<State>, actions: seq<Action>) {
    && codec.Sound()
    && |states| == |actions| + 1
    && Coherent(codec, states[0].m) && states[0].reloading == map[] && states[0].pending == map[]
    && (forall i {:trigger actions[i]} | 0 <= i < |actions| ::
          Enabled(states[i], actions[i]) && states[i + 1] == Apply(codec, states[i], actions[i]))
  }

  ghost predicate TicketOk(codec: Codec, t: Ticket) {
    Parse(codec, t.data) == Some((t.raw, t.live))
  }

  ghost predicate Inv(codec: Codec, s: State) {
    && Coherent(codec, s.m)
    && (forall a | a in s.pending :: TicketOk(codec, s.pending[a]))
  }

  /** A section either leaves memory alone or swaps in another mirrored byte string and bumps the revision. */
  ghost predicate SwapsOrKeeps(m: Manager, m': Manager) {
    || (m'.raw == m.raw && m'.live == m.live && m'.fingerprint == m.fingerprint && m'.revision == m.revision)
    || m'.revision == m.revision + 1
  }

  lemma SectionKeepsCoherence(codec: Codec, m: Manager, m': Manager, data: Bytes)
    requires Parse(codec, data) == Some((m'.raw, m'.live)) && m'.fingerprint == codec.hash(data)
    ensures Coherent(codec, m')
  {
    assert Mirrors(codec, m', data);
  }

  lemma PersistStep(codec: Codec, m: Manager, next: Config, writable: bool)
    requires Coherent(codec, m)
    ensures Coherent(codec, Keep(m, Persist(codec, m, next, writable)))
    ensures SwapsOrKeeps(m, Keep(m, Persist(codec, m, next, writable)))
  {
    if Persist(codec, m, next, writable).Ok? {
      var m' := Persist(codec, m, next, writable).value;
      SectionKeepsCoherence(codec, m, m', codec.encode(PreserveConfig(next, m.raw, m.live)));
    }
  }

  lemma ReloadStep(codec: Codec, m: Manager, read: Bytes)
    requires Coherent(codec, m)
    ensures Coherent(codec, Keep(m, FinishReload(codec, m, read)))
    ensures SwapsOrKeeps(m, Keep(m, FinishReload(codec, m, read)))
  {
    if FinishReload(codec, m, read).Ok? {
      SectionKeepsCoherence(codec, m, FinishReload(codec, m, read).value, read);
    }
  }

  lemma PreviewStep(codec: Codec, m: Manager, preview: Fingerprint, revision: nat, looks: (Bytes, Bytes, Bytes))
    requires Coherent(codec, m)
    ensures Coherent(codec, Keep(m, CommitPreview(codec, m, preview, revision, looks)))
    ensures SwapsOrKeeps(m, Keep(m, CommitPreview(codec, m, preview, revision, looks)))
  {
    if CommitPreview(codec, m, preview, revision, looks).Ok? {
      SectionKeepsCoherence(codec, m, CommitPreview(codec, m, preview, revision, looks).value, looks.1);
    }
  }

  lemma BeginStep(codec: Codec, m: Manager, edit: Edit, writable: bool)
    requires Coherent(codec, m)
    ensures match Begin(codec, m, edit, writable)
      case Err(_) => true
      case Ok((m', t)) => Coherent(codec, m') && SwapsOrKeeps(m, m') && TicketOk(codec, t)
  {
    if Begin(codec, m, edit, writable).Ok? {
      PersistStep(codec, m, SetDefaults(Edited(m.live, edit).value), writable);
    }
  }

  lemma RollbackStep(codec: Codec, m: Manager, t: Ticket, writable: bool)
    requires Coherent(codec, m) && TicketOk(codec, t)
    ensures Coherent(codec, Keep(m, Rollback(codec, m, t, writable)))
    ensures SwapsOrKeeps(m, Keep(m, Rollback(codec, m, t, writable)))
  {
    if Rollback(codec, m, t, writable).Ok? {
      SectionKeepsCoherence(codec, m, Rollback(codec, m, t, writable).value, t.data);
    }
  }

  lemma OutsideStep(codec: Codec, m: Manager, contents: Option<Bytes>)
    requires Coherent(codec, m)
    ensures Coherent(codec, m.(disk := contents))
  {
    var b :| Mirrors(codec, m, b);
    assert Mirrors(codec, m.(disk := contents), b);
  }

  lemma SectionStep(codec: Codec, s: State, action: Action)
    requires Inv(codec, s) && Enabled(s, action)
    ensures Coherent(codec, Apply(codec, s, action).m) && SwapsOrKeeps(s.m, Apply(codec, s, action).m)
  {
    match action {
      case WriteOutside(contents) => OutsideStep(codec, s.m, contents);
      case EditInside(next, writable) => PersistStep(codec, s.m, next, writable);
      case Reload(a) => ReloadStep(codec, s.m, s.reloading[a]);
      case Preview(preview, revision, looks) => PreviewStep(codec, s.m, preview, revision, looks);
      case BeginMutation(_, edit, writable) => BeginStep(codec, s.m, edit, writable);
      case RuntimeFailed(a, writable) =>
        assert TicketOk(codec, s.pending[a]);
        RollbackStep(codec, s.m, s.pending[a], writable);
      case _ =>
    }
  }

  lemma TicketsStayOk(codec: Codec, s: State, action: Action)
    requires Inv(codec, s) && Enabled(s, action)
    ensures forall a | a in Apply(codec, s, action).pending :: TicketOk(codec, Apply(codec, s, action).pending[a])
  {
    if action.BeginMutation? {
      BeginStep(codec, s.m, action.edit, action.writable);
    }
  }

  lemma Preserved(codec: Codec, s: State, action: Action)
    requires Inv(codec, s) && Enabled(s, action)
    ensures Inv(codec, Apply(codec, s, action))
    ensures SwapsOrKeeps(s.m, Apply(codec, s, action).m)
  {
    SectionStep(codec, s, action);
    TicketsStayOk(codec, s, action);
  }

  /** In every reachable state one byte string explains raw, live and fingerprint, and both configurations are
      valid. */
  lemma {:induction false} AlwaysCoherent(codec: Codec, states: seq<State>, actions: seq<Action>, k: nat)
    requires IsRun(codec, states, actions) && k < |states|
    ensures Inv(codec, states[k])
    ensures exists b :: Parse(codec, b) == Some((states[k].m.raw, states[k].m.live)) && codec.hash(b) == states[k].m.fingerprint
    ensures Validated(codec, states[k].m.raw) && Validated(codec, states[k].m.live)
  {
    if k > 0 {
      AlwaysCoherent(codec, states, actions, k - 1);
      Preserved(codec, states[k - 1], actions[k - 1]);
    }
    var b :| Mirrors(codec, states[k].m, b);
  }

  /** Revisions never decrease, and an unchanged revision means memory was not touched in between. */
  lemma {:induction false} RevisionTellsChange(codec: Codec, states: seq<State>, actions: seq<Action>, i: nat, j: nat)
    requires IsRun(codec, states, actions) && i <= j < |states|
    ensures states[i].m.revision <= states[j].m.revision
    ensures states[i].m.revision == states[j].m.revision ==>
      states[j].m == states[i].m.(disk := states[j].m.disk)
  {
    if i < j {
      RevisionTellsChange(codec, states, actions, i, j - 1);
      StepSwapsOrKeeps(codec, states, actions, j - 1);
    }
  }

  lemma StepSwapsOrKeeps(codec: Codec, states: seq<State>, actions: seq<Action>, k: nat)
    requires IsRun(codec, states, actions) && k < |actions|
    ensures SwapsOrKeeps(states[k].m, states[k + 1].m)
  {
    AlwaysCoherent(codec, states, actions, k);
    Preserved(codec, states[k], actions[k]);
  }

  lemma {:induction false} TicketKept(codec: Codec, states: seq<State>, actions: seq<Action>, a: ActorId, i: nat, j: nat)
    requires IsRun(codec, states, actions) && i <= j < |states|
    requires a in states[i].pending
    requires forall k | i <= k < j :: !(actions[k].RuntimeSucceeded? || actions[k].RuntimeFailed?) || actions[k].actor != a
    ensures a in states[j].pending && states[j].pending[a] == states[i].pending[a]
  {
    if i < j {
      TicketKept(codec, states, actions, a, i, j - 1);
      assert Enabled(states[j - 1], actions[j - 1]);
    }
  }

  /** The outcomes of a mutation that wrote the file at step i and whose runtime step failed at step j:
      either the rollback restores the exact bytes, configurations and fingerprint of before step i with the
      revision advanced by two, or it reports an error and touches nothing. It restores exactly when no section
      swapped the configuration in between, the file still holds what step i wrote, and the write succeeds. */
  lemma FailedMutationOutcomes(codec: Codec, states: seq<State>, actions: seq<Action>, a: ActorId, i: nat, j: nat)
    requires IsRun(codec, states, actions) && i < j < |actions|
    requires actions[i].BeginMutation? && actions[i].actor == a
    requires Begin(codec, states[i].m, actions[i].edit, actions[i].writable).Ok?
    requires actions[j].RuntimeFailed? && actions[j].actor == a
    requires forall k | i < k < j :: !(actions[k].RuntimeSucceeded? || actions[k].RuntimeFailed?) || actions[k].actor != a
    ensures a in states[j].pending
    ensures var before, written, found := states[i].m, states[i + 1].m, states[j].m;
      var rollback := Rollback(codec, found, states[j].pending[a], actions[j].writable);
      && (rollback.Ok? <==> found == written && actions[j].writable)
      && (rollback.Ok? ==> states[j + 1].m == before.(revision := before.revision + 2))
      && (rollback.Err? ==> states[j + 1].m == found)
  {
    var before, written, found := states[i].m, states[i + 1].m, states[j].m;
    AlwaysCoherent(codec, states, actions, i);
    assert Enabled(states[i], actions[i]);
    TicketIsSnapshot(codec, before, actions[i].edit, actions[i].writable);
    TicketKept(codec, states, actions, a, i + 1, j);
    RevisionTellsChange(codec, states, actions, i + 1, j);
    var t := states[j].pending[a];
    assert codec.hash(written.disk.value) == written.fingerprint;
    assert Enabled(states[j], actions[j]);
    if found.disk.Some? && codec.hash(found.disk.value) == found.fingerprint && found.revision == t.revision {
      assert found.disk == written.disk;
    }
  }

  /** The section at step k swapped another configuration into memory. */
  ghost predicate SwapsAt(states: seq<State>, k: nat)
    requires k + 1 < |states|
  {
    states[k + 1].m.revision != states[k].m.revision
  }

  ghost predicate Quiet(states: seq<State>, i: nat, j: nat)
    requires i <= j < |states|
  {
    forall k | i <= k < j :: !SwapsAt(states, k)
  }

  lemma {:induction false} QuietStepsKeepRevision(states: seq<State>, i: nat, j: nat)
    requires i <= j < |states| && Quiet(states, i, j)
    ensures states[j].m.revision == states[i].m.revision
  {
    if i < j {
      QuietStepsKeepRevision(states, i, j - 1);
      assert !SwapsAt(states, j - 1);
    }
  }

  lemma UntouchedIffQuiet(codec: Codec, states: seq<State>, actions: seq<Action>, i: nat, j: nat)
    requires IsRun(codec, states, actions) && i <= j < |states|
    ensures states[j].m == states[i].m.(disk := states[j].m.disk) <==> Quiet(states, i, j)
  {
    RevisionTellsChange(codec, states, actions, i, j);
    if states[j].m.revision == states[i].m.revision {
      forall k | i <= k < j ensures !SwapsAt(states, k) {
        RevisionTellsChange(codec, states, actions, i, k);
        RevisionTellsChange(codec, states, actions, k, k + 1);
        RevisionTellsChange(codec, states, actions, k + 1, j);
      }
    }
    if Quiet(states, i, j) {
      QuietStepsKeepRevision(states, i, j);
    }
  }

  /** Memory holds an edit of what it held before: the file's side with the references restored, and the live
      side equal to the edit exactly if the edit is stable under expansion. */
  ghost predicate HoldsEdit(codec: Codec, before: Manager, edit: Edit, after: Manager) {
    && Edited(before.live, edit).Some?
    && EditOf(before.live, edit, Edited(before.live, edit).value)
    && var next := SetDefaults(Edited(before.live, edit).value);
    && after.raw == PreserveConfig(next, before.raw, before.live)
    && (after.live == next <==> StableConfig(codec.expand, next, before.raw))
  }

  lemma WrittenIsEdit(codec: Codec, m: Manager, edit: Edit, writable: bool)
    requires codec.Sound() && Coherent(codec, m)
    ensures Begin(codec, m, edit, writable).Ok? ==>
      var m' := Begin(codec, m, edit, writable).value.0;
      HoldsEdit(codec, m, edit, m') && m'.disk == Some(codec.encode(m'.raw))
  {
    if Begin(codec, m, edit, writable).Ok? {
      EditedAsMeant(m.live, edit);
      DefaultsAreIdempotent(Edited(m.live, edit).value);
      PersistGivesEdit(codec, m, SetDefaults(Edited(m.live, edit).value), writable);
    }
  }

  /** The outcome of a mutation that wrote the file at step i and whose runtime step succeeded at step j: the
      write left the edit in the file and in memory, the success itself touches nothing, and memory is then still
      what was written exactly if no section swapped in between. */
  lemma SuccessfulMutation(codec: Codec, states: seq<State>, actions: seq<Action>, a: ActorId, i: nat, j: nat)
    requires IsRun(codec, states, actions) && i < j < |actions|
    requires actions[i].BeginMutation? && actions[i].actor == a
    requires Begin(codec, states[i].m, actions[i].edit, actions[i].writable).Ok?
    requires actions[j].RuntimeSucceeded? && actions[j].actor == a
    requires forall k | i < k < j :: !(actions[k].RuntimeSucceeded? || actions[k].RuntimeFailed?) || actions[k].actor != a
    ensures a in states[j].pending && a !in states[j + 1].pending && states[j + 1].m == states[j].m
    ensures var (written, final) := (states[i + 1].m, states[j + 1].m);
      final == written.(disk := final.disk) <==> Quiet(states, i + 1, j)
    ensures HoldsEdit(codec, states[i].m, actions[i].edit, states[i + 1].m)
    ensures states[i + 1].m.disk == Some(codec.encode(states[i + 1].m.raw))
    ensures Quiet(states, i + 1, j) ==> HoldsEdit(codec, states[i].m, actions[i].edit, states[j + 1].m)
  {
    BegunAt(codec, states, actions, i);
    TicketKept(codec, states, actions, a, i + 1, j);
    SuccessTouchesNothing(codec, states, actions, i + 1, j);
    if Quiet(states, i + 1, j) {
      EditOutlivesDisk(codec, states[i].m, actions[i].edit, states[i + 1].m, states[j + 1].m);
    }
  }

  lemma SuccessTouchesNothing(codec: Codec, states: seq<State>, actions: seq<Action>, i: nat, j: nat)
    requires IsRun(codec, states, actions) && i <= j < |actions| && actions[j].RuntimeSucceeded?
    ensures states[j + 1].m == states[j].m && actions[j].actor !in states[j + 1].pending
    ensures states[j + 1].m == states[i].m.(disk := states[j + 1].m.disk) <==> Quiet(states, i, j)
  {
    UntouchedIffQuiet(codec, states, actions, i, j);
    SucceededAt(codec, states, actions, j);
  }

  lemma EditOutlivesDisk(codec: Codec, before: Manager, edit: Edit, m: Manager, m': Manager)
    requires HoldsEdit(codec, before, edit, m) && m' == m.(disk := m'.disk)
    ensures HoldsEdit(codec, before, edit, m')
  {
  }

  lemma BegunAt(codec: Codec, states: seq<State>, actions: seq<Action>, i: nat)
    requires IsRun(codec, states, actions) && i < |actions| && actions[i].BeginMutation?
    requires Begin(codec, states[i].m, actions[i].edit, actions[i].writable).Ok?
    ensures states[i + 1].m == Begin(codec, states[i].m, actions[i].edit, actions[i].writable).value.0
    ensures actions[i].actor in states[i + 1].pending
    ensures HoldsEdit(codec, states[i].m, actions[i].edit, states[i + 1].m)
    ensures states[i + 1].m.disk == Some(codec.encode(states[i + 1].m.raw))
  {
    AlwaysCoherent(codec, states, actions, i);
    assert Enabled(states[i], actions[i]);
    WrittenIsEdit(codec, states[i].m, actions[i].edit, actions[i].writable);
  }

  lemma SucceededAt(codec: Codec, states: seq<State>, actions: seq<Action>, j: nat)
    requires IsRun(codec, states, actions) && j < |actions| && actions[j].RuntimeSucceeded?
    ensures states[j + 1] == states[j].(pending := states[j].pending - {actions[j].actor})
  {
    assert Enabled(states[j], actions[j]);
  }

  // ---- the manager object ----

  /** A section answered r: on success the new state is r's, on an error nothing changed. */
  ghost predicate Answers(r: Outcome<Manager>, before: Manager, after: Manager, error: Option<Error>) {
    match r
    case Ok(m) => error == None && after == m
    case Err(e) => error == Some(e) && after == before
  }

  method ParsePlatformBytes(codec: Codec, data: Bytes) returns (parsed: Option<(Config, Config)>)
    ensures parsed == Parse(codec, data)
  {
    var decoded := codec.decode(data);
    if decoded.None? {
      return None;
    }
    var raw := SetDefaults(decoded.value);
    var rawOk := Validate(codec, raw);
    if !rawOk {
      return None;
    }
    var live := ExpandConfig(codec.expand, raw);
    var liveOk := Validate(codec, live);
    if !liveOk {
      return None;
    }
    parsed := Some((raw, live));
  }

  class ConfigManager {
    const codec: Codec
    var disk: Option<Bytes>
    var config: Config
    var persisted: Config
    var fingerprint: Fingerprint
    var revision: nat

    ghost function Model(): Manager
      reads this
    {
      Manager(disk, config, persisted, fingerprint, revision)
    }

    /** NewConfigManager: the first load; nothing is known before it succeeds. */
    constructor (codec: Codec, data: Bytes, raw: Config, live: Config)
      requires Parse(codec, data) == Some((raw, live))
      ensures this.codec == codec && Mirrors(codec, Model(), data) && disk == Some(data) && revision == 1
    {
      this.codec, disk, config, persisted := codec, Some(data), live, raw;
      fingerprint, revision := codec.hash(data), 1;
    }

    method PersistBytesLocked(data: Bytes, raw: Config, live: Config, writable: bool) returns (error: Option<Error>)
      modifies this
      ensures Answers(PersistBytes(codec, old(Model()), data, raw, live, writable), old(Model()), Model(), error)
    {
      if !writable {
        return Some(WriteFailed);
      }
      if disk.None? {
        return Some(Unreadable);
      }
      if codec.hash(disk.value) != fingerprint {
        return Some(Conflict);
      }
      disk := Some(data);
      config := live;
      persisted := raw;
      fingerprint := codec.hash(data);
      revision := revision + 1;
      error := None;
    }

    method PersistLocked(edited: Config, writable: bool) returns (error: Option<Error>)
      modifies this
      ensures Answers(Persist(codec, old(Model()), edited, writable), old(Model()), Model(), error)
    {
      var next := PreserveEnvironmentReferences(edited, persisted, config);
      var data := codec.encode(next);
      var parsed := ParsePlatformBytes(codec, data);
      if parsed.None? {
        return Some(Invalid);
      }
      error := PersistBytesLocked(data, parsed.value.0, parsed.value.1, writable);
    }

    method FindSource(name: string) returns (index: nat)
      ensures index == SourceIndex(config.sources, name)
    {
      index := 0;
      while index < |config.sources| && config.sources[index].name != name
        invariant index <= |config.sources|
        invariant forall j | 0 <= j < index :: config.sources[j].name != name
      {
        index := index + 1;
      }
      assert !(SourceIndex(config.sources, name) < index);
    }

    /** The edited copy of the live configuration, if it has the source. */
    method EditSource(edit: Edit) returns (edited: Option<Config>)
      ensures edited == Edited(config, edit)
    {
      var i := FindSource(edit.name);
      if i == |config.sources| {
        return None;
      }
      var next := config;
      match edit {
        case Replace(name, s) =>
          var kept := s.(name := name);
          if kept.enabled.None? {
            kept := kept.(enabled := config.sources[i].enabled);
          }
          next := next.(sources := next.sources[i := kept]);
        case Drop(_) =>
          next := next.(sources := next.sources[..i] + next.sources[i + 1..]);
      }
      edited := Some(next);
    }

    /** The first locked section of UpdateSourceWithRuntime and RemoveSourceWithRuntime. */
    method BeginMutation(edit: Edit, writable: bool) returns (started: Outcome<Ticket>)
      modifies this
      ensures match Begin(codec, old(Model()), edit, writable)
        case Err(e) => started == Err(e) && Model() == old(Model())
        case Ok((m, t)) => started == Ok(t) && Model() == m
    {
      if disk.None? {
        return Err(Unreadable);
      }
      var original := disk.value;
      if codec.hash(original) != fingerprint {
        return Err(Conflict);
      }
      var parsed := ParsePlatformBytes(codec, original);
      if parsed.None? {
        return Err(Malformed);
      }
      var edited := EditSource(edit);
      if edited.None? {
        return Err(NotFound);
      }
      var next := SetDefaults(edited.value);
      var valid := Validate(codec, next);
      if !valid {
        return Err(Invalid);
      }
      var error := PersistLocked(next, writable);
      if error.Some? {
        return Err(error.value);
      }
      started := Ok(Ticket(original, parsed.value.0, parsed.value.1, revision, fingerprint));
    }

    /** The locked section after the runtime step failed; the answer is the rollback error. */
    method RollBack(t: Ticket, writable: bool) returns (error: Option<Error>)
      modifies this
      ensures Answers(Rollback(codec, old(Model()), t, writable), old(Model()), Model(), error)
    {
      if revision != t.revision || fingerprint != t.fingerprint {
        return Some(Conflict);
      }
      error := PersistBytesLocked(t.data, t.raw, t.live, writable);
    }

    /** CommitPreview; `looks` are the bytes its three reads of the file find. */
    method CommitPreviewLocked(preview: Fingerprint, expected: nat, looks: (Bytes, Bytes, Bytes))
      returns (error: Option<Error>)
      modifies this
      ensures Answers(CommitPreview(codec, old(Model()), preview, expected, looks), old(Model()), Model(), error)
    {
      if revision != expected {
        return Some(Conflict);
      }
      var seen := codec.hash(looks.0);
      if preview == "" || seen != preview {
        return Some(Conflict);
      }
      var parsed := ParsePlatformBytes(codec, looks.1);
      if parsed.None? {
        return Some(Invalid);
      }
      var read := codec.hash(looks.1);
      if read != seen || codec.hash(looks.2) != read {
        return Some(Conflict);
      }
      persisted, config := parsed.value.0, parsed.value.1;
      fingerprint := read;
      revision := revision + 1;
      error := None;
    }

    /** The locked half of Reload. */
    method Reload(read: Bytes) returns (error: Option<Error>)
      modifies this
      ensures Answers(FinishReload(codec, old(Model()), read), old(Model()), Model(), error)
    {
      var parsed := ParsePlatformBytes(codec, read);
      if parsed.None? {
        return Some(Invalid);
      }
      if disk.None? {
        return Some(Unreadable);
      }
      if codec.hash(disk.value) != codec.hash(read) {
        return Some(Conflict);
      }
      persisted, config := parsed.value.0, parsed.value.1;
      fingerprint := codec.hash(read);
      revision := revision + 1;
      error := None;
    }
  }
}
