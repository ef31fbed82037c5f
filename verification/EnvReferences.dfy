/**
 Expansion of `${ENV}` references in a configuration and their preservation when an expanded copy is edited
 and written back. `expand` stands for os.ExpandEnv under a fixed environment.
 */
module EnvReferences {
  import opened Options

  /** A decoded option value; Scalar covers numbers, booleans and null, which carry no references. */
  datatype Value =
    | Str(text: string)
    | List(items: seq<Value>)
    | Dict(entries: map<string, Value>)
    | Scalar(tag: int)

  datatype Channel = Channel(name: string, mode: string, webhook: string, options: map<string, Value>)

  datatype Source = Source(
    name: string, url: string, interval: int, schedule: seq<string>, deliveryMode: string, routed: bool,
    enabled: Option<bool>, options: map<string, Value>)

  datatype Config = Config(
    llmUrl: string, llmKey: string, channels: seq<Channel>, sources: seq<Source>,
    newsMaxItems: int, newsTtl: int)

  type Expander = string -> string

  /** Expansion leaves text without a dollar sign alone. */
  ghost predicate PlainIsFixed(expand: Expander) {
    forall s: string :: '$' !in s ==> expand(s) == s
  }

  /** strings.Contains(s, "${") */
  predicate HasReference(s: string) {
    |s| >= 2 && ((s[0] == '$' && s[1] == '{') || HasReference(s[1..]))
  }

  /** A reference is a dollar sign with a brace right behind it, anywhere in the text. */
  lemma {:induction false} HasReferenceIff(s: string)
    ensures HasReference(s) <==> exists i :: 0 <= i < |s| - 1 && s[i] == '$' && s[i + 1] == '{'
  {
    if |s| >= 2 {
      HasReferenceIff(s[1..]);
      if i :| 0 <= i < |s| - 1 && s[i] == '$' && s[i + 1] == '{' && i > 0 {
        assert s[1..][i - 1] == '$' && s[1..][i - 1 + 1] == '{';
      }
      if i :| 0 <= i < |s[1..]| - 1 && s[1..][i] == '$' && s[1..][i + 1] == '{' {
        assert s[i + 1] == '$' && s[i + 1 + 1] == '{';
      }
    }
  }

  // ---- expansion ----

  function Expand(expand: Expander, v: Value): Value
    decreases v, 1
  {
    match v
    case Str(s) => Str(expand(s))
    case List(xs) => List(seq(|xs|, i requires 0 <= i < |xs| => Expand(expand, xs[i])))
    case Dict(m) => Dict(ExpandOptions(expand, m))
    case Scalar(_) => v
  }

  function ExpandOptions(expand: Expander, m: map<string, Value>): map<string, Value>
    decreases Dict(m), 0
  {
    map k | k in m :: Expand(expand, m[k])
  }

  function ExpandChannel(expand: Expander, c: Channel): Channel {
    c.(webhook := expand(c.webhook), options := ExpandOptions(expand, c.options))
  }

  function ExpandSource(expand: Expander, c: Source): Source {
    c.(url := expand(c.url), options := ExpandOptions(expand, c.options))
  }

  function ExpandConfig(expand: Expander, c: Config): Config {
    c.(llmUrl := expand(c.llmUrl), llmKey := expand(c.llmKey),
       channels := seq(|c.channels|, i requires 0 <= i < |c.channels| => ExpandChannel(expand, c.channels[i])),
       sources := seq(|c.sources|, i requires 0 <= i < |c.sources| => ExpandSource(expand, c.sources[i])))
  }

  // ---- preservation ----

  predicate Restores(next: string, raw: string, live: string) {
    HasReference(raw) && next == live
  }

  function PreserveString(next: string, raw: string, live: string): string {
    if Restores(next, raw, live) then raw else next
  }

  function Preserve(next: Value, raw: Value, live: Value): Value
    decreases next, 1
  {
    match next
    case Str(s) => if raw.Str? && live.Str? then Str(PreserveString(s, raw.text, live.text)) else next
    case List(xs) =>
      if raw.List? && live.List? then
        List(seq(|xs|, i requires 0 <= i < |xs| =>
          if i < |raw.items| && i < |live.items| then Preserve(xs[i], raw.items[i], live.items[i]) else xs[i]))
      else next
    case Dict(m) => if raw.Dict? && live.Dict? then Dict(PreserveOptions(m, raw.entries, live.entries)) else next
    case Scalar(_) => next
  }

  function PreserveOptions(next: map<string, Value>, raw: map<string, Value>, live: map<string, Value>): map<string, Value>
    decreases Dict(next), 0
  {
    map k | k in next :: if k in raw && k in live then Preserve(next[k], raw[k], live[k]) else next[k]
  }

  /** A map filled in list order keeps the last entry of a name. */
  function LastChannel(cs: seq<Channel>, name: string): Option<Channel> {
    if cs == [] then None
    else if cs[|cs| - 1].name == name then Some(cs[|cs| - 1])
    else LastChannel(cs[..|cs| - 1], name)
  }

  function LastSource(cs: seq<Source>, name: string): Option<Source> {
    if cs == [] then None
    else if cs[|cs| - 1].name == name then Some(cs[|cs| - 1])
    else LastSource(cs[..|cs| - 1], name)
  }

  function PreserveChannel(next: Channel, raw: Option<Channel>, live: Option<Channel>): Channel {
    if raw.None? || live.None? then next
    else next.(webhook := PreserveString(next.webhook, raw.value.webhook, live.value.webhook),
               options := PreserveOptions(next.options, raw.value.options, live.value.options))
  }

  function PreserveSource(next: Source, raw: Option<Source>, live: Option<Source>): Source {
    if raw.None? || live.None? then next
    else next.(url := PreserveString(next.url, raw.value.url, live.value.url),
               options := PreserveOptions(next.options, raw.value.options, live.value.options))
  }

  function PreserveConfig(next: Config, raw: Config, live: Config): Config {
    next.(
      llmUrl := PreserveString(next.llmUrl, raw.llmUrl, live.llmUrl),
      llmKey := PreserveString(next.llmKey, raw.llmKey, live.llmKey),
      channels := seq(|next.channels|, i requires 0 <= i < |next.channels| =>
        PreserveChannel(next.channels[i], LastChannel(raw.channels, next.channels[i].name),
          LastChannel(live.channels, next.channels[i].name))),
      sources := seq(|next.sources|, i requires 0 <= i < |next.sources| =>
        PreserveSource(next.sources[i], LastSource(raw.sources, next.sources[i].name),
          LastSource(live.sources, next.sources[i].name))))
  }

  // ---- the conditions a caller can check before writing ----

  predicate FixedString(expand: Expander, s: string) {
    expand(s) == s
  }

  /** An edited string survives when its reference is restored or when expansion does not touch it. */
  predicate StableString(expand: Expander, next: string, raw: string, live: string) {
    Restores(next, raw, live) || FixedString(expand, next)
  }

  predicate Fixed(expand: Expander, v: Value) {
    match v
    case Str(s) => FixedString(expand, s)
    case List(xs) => forall i | 0 <= i < |xs| :: Fixed(expand, xs[i])
    case Dict(m) => forall k | k in m :: Fixed(expand, m[k])
    case Scalar(_) => true
  }

  predicate Stable(expand: Expander, next: Value, raw: Value, live: Value)
    decreases next, 1
  {
    match next
    case Str(s) => if raw.Str? && live.Str? then StableString(expand, s, raw.text, live.text) else Fixed(expand, next)
    case List(xs) =>
      if raw.List? && live.List? then
        forall i | 0 <= i < |xs| ::
          if i < |raw.items| && i < |live.items| then Stable(expand, xs[i], raw.items[i], live.items[i])
          else Fixed(expand, xs[i])
      else Fixed(expand, next)
    case Dict(m) =>
      if raw.Dict? && live.Dict? then StableOptions(expand, m, raw.entries, live.entries) else Fixed(expand, next)
    case Scalar(_) => true
  }

  predicate StableOptions(expand: Expander, next: map<string, Value>, raw: map<string, Value>, live: map<string, Value>)
    decreases Dict(next), 0
  {
    forall k | k in next ::
      if k in raw && k in live then Stable(expand, next[k], raw[k], live[k]) else Fixed(expand, next[k])
  }

  /** Every reference of the raw text is written with braces, or expansion does not touch the text. */
  predicate Braced(expand: Expander, raw: Value) {
    match raw
    case Str(s) => BracedString(expand, s)
    case List(xs) => forall i | 0 <= i < |xs| :: Braced(expand, xs[i])
    case Dict(m) => forall k | k in m :: Braced(expand, m[k])
    case Scalar(_) => true
  }

  predicate BracedString(expand: Expander, s: string) {
    HasReference(s) || FixedString(expand, s)
  }

  predicate BracedOptions(expand: Expander, m: map<string, Value>) {
    forall k | k in m :: Braced(expand, m[k])
  }

  // ---- round trips at every depth ----

  lemma {:induction false} FixedIffUnchanged(expand: Expander, v: Value)
    ensures Expand(expand, v) == v <==> Fixed(expand, v)
  {
    match v
    case Str(_) =>
    case List(xs) =>
      forall i | 0 <= i < |xs| ensures Expand(expand, xs[i]) == xs[i] <==> Fixed(expand, xs[i]) {
        FixedIffUnchanged(expand, xs[i]);
      }
      var ys := Expand(expand, v).items;
      assert ys == xs <==> forall i | 0 <= i < |xs| :: ys[i] == xs[i];
    case Dict(m) =>
      forall k | k in m ensures Expand(expand, m[k]) == m[k] <==> Fixed(expand, m[k]) {
        FixedIffUnchanged(expand, m[k]);
      }
      var n := ExpandOptions(expand, m);
      assert n == m <==> forall k | k in m :: n[k] == m[k];
    case Scalar(_) =>
  }

  /** Writing an edit and expanding it again gives the edit back exactly when the edit is stable. */
  lemma {:induction false} EditSurvives(expand: Expander, next: Value, raw: Value, live: Value)
    requires live == Expand(expand, raw)
    ensures Expand(expand, Preserve(next, raw, live)) == next <==> Stable(expand, next, raw, live)
    decreases next, 1
  {
    match next
    case Str(s) => FixedIffUnchanged(expand, next);
    case List(xs) =>
      FixedIffUnchanged(expand, next);
      if raw.List? {
        var ys := Expand(expand, Preserve(next, raw, live)).items;
        forall i | 0 <= i < |xs|
          ensures ys[i] == xs[i] <==>
            if i < |raw.items| && i < |live.items| then Stable(expand, xs[i], raw.items[i], live.items[i])
            else Fixed(expand, xs[i])
        {
          FixedIffUnchanged(expand, xs[i]);
          if i < |raw.items| {
            EditSurvives(expand, xs[i], raw.items[i], live.items[i]);
          }
        }
        assert ys == xs <==> forall i | 0 <= i < |xs| :: ys[i] == xs[i];
      }
    case Dict(m) =>
      FixedIffUnchanged(expand, next);
      if raw.Dict? {
        OptionsSurvive(expand, m, raw.entries);
      }
    case Scalar(_) =>
  }

  lemma {:induction false} OptionsSurvive(expand: Expander, next: map<string, Value>, raw: map<string, Value>)
    ensures var live := ExpandOptions(expand, raw);
      ExpandOptions(expand, PreserveOptions(next, raw, live)) == next <==> StableOptions(expand, next, raw, live)
    decreases Dict(next), 0
  {
    var live := ExpandOptions(expand, raw);
    var out := ExpandOptions(expand, PreserveOptions(next, raw, live));
    forall k | k in next
      ensures out[k] == next[k] <==>
        if k in raw && k in live then Stable(expand, next[k], raw[k], live[k]) else Fixed(expand, next[k])
    {
      FixedIffUnchanged(expand, next[k]);
      if k in raw {
        EditSurvives(expand, next[k], raw[k], live[k]);
      }
    }
    assert out == next <==> forall k | k in next :: out[k] == next[k];
  }

  // ---- whole configurations ----

  predicate StableChannel(expand: Expander, next: Channel, raw: Option<Channel>) {
    if raw.None? then FixedString(expand, next.webhook) && Fixed(expand, Dict(next.options))
    else
      var live := ExpandChannel(expand, raw.value);
      StableString(expand, next.webhook, raw.value.webhook, live.webhook) &&
      StableOptions(expand, next.options, raw.value.options, live.options)
  }

  predicate StableSource(expand: Expander, next: Source, raw: Option<Source>) {
    if raw.None? then FixedString(expand, next.url) && Fixed(expand, Dict(next.options))
    else
      var live := ExpandSource(expand, raw.value);
      StableString(expand, next.url, raw.value.url, live.url) &&
      StableOptions(expand, next.options, raw.value.options, live.options)
  }

  predicate StableConfig(expand: Expander, next: Config, raw: Config) {
    && StableString(expand, next.llmUrl, raw.llmUrl, expand(raw.llmUrl))
    && StableString(expand, next.llmKey, raw.llmKey, expand(raw.llmKey))
    && (forall i | 0 <= i < |next.channels| ::
          StableChannel(expand, next.channels[i], LastChannel(raw.channels, next.channels[i].name)))
    && (forall i | 0 <= i < |next.sources| ::
          StableSource(expand, next.sources[i], LastSource(raw.sources, next.sources[i].name)))
  }

  predicate BracedConfig(expand: Expander, raw: Config) {
    && BracedString(expand, raw.llmUrl) && BracedString(expand, raw.llmKey)
    && (forall i | 0 <= i < |raw.channels| ::
          BracedString(expand, raw.channels[i].webhook) && BracedOptions(expand, raw.channels[i].options))
    && (forall i | 0 <= i < |raw.sources| ::
          BracedString(expand, raw.sources[i].url) && BracedOptions(expand, raw.sources[i].options))
  }

  ghost predicate DistinctChannels(cs: seq<Channel>) {
    forall i, j | 0 <= i < j < |cs| :: cs[i].name != cs[j].name
  }

  ghost predicate DistinctSources(cs: seq<Source>) {
    forall i, j | 0 <= i < j < |cs| :: cs[i].name != cs[j].name
  }

  lemma {:induction false} LastExpandedChannel(expand: Expander, c: Config, cs: seq<Channel>, name: string)
    requires cs <= c.channels
    ensures LastChannel(ExpandConfig(expand, c).channels[..|cs|], name) ==
      match LastChannel(cs, name) case None => None case Some(r) => Some(ExpandChannel(expand, r))
  {
    if cs != [] {
      LastExpandedChannel(expand, c, cs[..|cs| - 1], name);
      var live := ExpandConfig(expand, c).channels[..|cs|];
      assert live[..|cs| - 1] == ExpandConfig(expand, c).channels[..|cs| - 1];
    }
  }

  lemma {:induction false} LastExpandedSource(expand: Expander, c: Config, cs: seq<Source>, name: string)
    requires cs <= c.sources
    ensures LastSource(ExpandConfig(expand, c).sources[..|cs|], name) ==
      match LastSource(cs, name) case None => None case Some(r) => Some(ExpandSource(expand, r))
  {
    if cs != [] {
      LastExpandedSource(expand, c, cs[..|cs| - 1], name);
      var live := ExpandConfig(expand, c).sources[..|cs|];
      assert live[..|cs| - 1] == ExpandConfig(expand, c).sources[..|cs| - 1];
    }
  }

  lemma ChannelSurvives(expand: Expander, next: Channel, raw: Option<Channel>)
    ensures var live := match raw case None => None case Some(r) => Some(ExpandChannel(expand, r));
      ExpandChannel(expand, PreserveChannel(next, raw, live)) == next <==> StableChannel(expand, next, raw)
  {
    FixedIffUnchanged(expand, Dict(next.options));
    if raw.Some? {
      OptionsSurvive(expand, next.options, raw.value.options);
    }
  }

  lemma SourceSurvives(expand: Expander, next: Source, raw: Option<Source>)
    ensures var live := match raw case None => None case Some(r) => Some(ExpandSource(expand, r));
      ExpandSource(expand, PreserveSource(next, raw, live)) == next <==> StableSource(expand, next, raw)
  {
    FixedIffUnchanged(expand, Dict(next.options));
    if raw.Some? {
      OptionsSurvive(expand, next.options, raw.value.options);
    }
  }

  /** The round trip of an edited configuration; no uniqueness of names is needed. */
  lemma ConfigEditSurvives(expand: Expander, next: Config, raw: Config)
    ensures var live := ExpandConfig(expand, raw);
      ExpandConfig(expand, PreserveConfig(next, raw, live)) == next <==> StableConfig(expand, next, raw)
  {
    var live := ExpandConfig(expand, raw);
    var out := ExpandConfig(expand, PreserveConfig(next, raw, live));
    forall i | 0 <= i < |next.channels|
      ensures out.channels[i] == next.channels[i] <==>
        StableChannel(expand, next.channels[i], LastChannel(raw.channels, next.channels[i].name))
    {
      var name := next.channels[i].name;
      LastExpandedChannel(expand, raw, raw.channels, name);
      assert live.channels[..|raw.channels|] == live.channels;
      ChannelSurvives(expand, next.channels[i], LastChannel(raw.channels, name));
    }
    forall i | 0 <= i < |next.sources|
      ensures out.sources[i] == next.sources[i] <==>
        StableSource(expand, next.sources[i], LastSource(raw.sources, next.sources[i].name))
    {
      var name := next.sources[i].name;
      LastExpandedSource(expand, raw, raw.sources, name);
      assert live.sources[..|raw.sources|] == live.sources;
      SourceSurvives(expand, next.sources[i], LastSource(raw.sources, name));
    }
    assert out.channels == next.channels <==> forall i | 0 <= i < |next.channels| :: out.channels[i] == next.channels[i];
    assert out.sources == next.sources <==> forall i | 0 <= i < |next.sources| :: out.sources[i] == next.sources[i];
  }

  lemma {:induction false} UniqueChannelIsLast(cs: seq<Channel>, i: nat)
    requires DistinctChannels(cs) && i < |cs|
    ensures LastChannel(cs, cs[i].name) == Some(cs[i])
  {
    if i < |cs| - 1 {
      UniqueChannelIsLast(cs[..|cs| - 1], i);
    }
  }

  lemma {:induction false} UniqueSourceIsLast(cs: seq<Source>, i: nat)
    requires DistinctSources(cs) && i < |cs|
    ensures LastSource(cs, cs[i].name) == Some(cs[i])
  {
    if i < |cs| - 1 {
      UniqueSourceIsLast(cs[..|cs| - 1], i);
    }
  }

  // The value a raw entry is compared with on the way back is that of the last entry of its name.

  /** A raw text survives an unedited write when the last entry's text at its place is restored and is the same,
      or when nothing is restored and expansion does not touch it. */
  predicate KeptString(expand: Expander, s: string, last: string) {
    if Restores(expand(s), last, expand(last)) then last == s else FixedString(expand, s)
  }

  predicate Kept(expand: Expander, v: Value, last: Value)
    decreases v, 1
  {
    match v
    case Str(s) => if last.Str? then KeptString(expand, s, last.text) else FixedString(expand, s)
    case List(xs) =>
      if last.List? then
        forall i | 0 <= i < |xs| :: if i < |last.items| then Kept(expand, xs[i], last.items[i]) else Fixed(expand, xs[i])
      else Fixed(expand, v)
    case Dict(m) => if last.Dict? then KeptOptions(expand, m, last.entries) else Fixed(expand, v)
    case Scalar(_) => true
  }

  predicate KeptOptions(expand: Expander, m: map<string, Value>, last: map<string, Value>)
    decreases Dict(m), 0
  {
    forall k | k in m :: if k in last then Kept(expand, m[k], last[k]) else Fixed(expand, m[k])
  }

  lemma {:induction false} KeptIffRestored(expand: Expander, v: Value, last: Value)
    ensures Preserve(Expand(expand, v), last, Expand(expand, last)) == v <==> Kept(expand, v, last)
    decreases v, 1
  {
    FixedIffUnchanged(expand, v);
    match v
    case Str(_) =>
    case List(xs) =>
      if last.List? {
        var ys := Preserve(Expand(expand, v), last, Expand(expand, last)).items;
        forall i | 0 <= i < |xs|
          ensures ys[i] == xs[i] <==>
            if i < |last.items| then Kept(expand, xs[i], last.items[i]) else Fixed(expand, xs[i])
        {
          FixedIffUnchanged(expand, xs[i]);
          if i < |last.items| {
            KeptIffRestored(expand, xs[i], last.items[i]);
          }
        }
        assert ys == xs <==> forall i | 0 <= i < |xs| :: ys[i] == xs[i];
      }
    case Dict(m) =>
      if last.Dict? {
        OptionsKeptIffRestored(expand, m, last.entries);
      }
    case Scalar(_) =>
  }

  lemma {:induction false} OptionsKeptIffRestored(expand: Expander, m: map<string, Value>, last: map<string, Value>)
    ensures PreserveOptions(ExpandOptions(expand, m), last, ExpandOptions(expand, last)) == m <==>
      KeptOptions(expand, m, last)
    decreases Dict(m), 0
  {
    var out := PreserveOptions(ExpandOptions(expand, m), last, ExpandOptions(expand, last));
    forall k | k in m
      ensures out[k] == m[k] <==> if k in last then Kept(expand, m[k], last[k]) else Fixed(expand, m[k])
    {
      FixedIffUnchanged(expand, m[k]);
      if k in last {
        KeptIffRestored(expand, m[k], last[k]);
      }
    }
    assert out == m <==> forall k | k in m :: out[k] == m[k];
  }

  predicate KeptChannel(expand: Expander, c: Channel, last: Channel) {
    KeptString(expand, c.webhook, last.webhook) && KeptOptions(expand, c.options, last.options)
  }

  predicate KeptSource(expand: Expander, c: Source, last: Source) {
    KeptString(expand, c.url, last.url) && KeptOptions(expand, c.options, last.options)
  }

  lemma {:induction false} EveryChannelHasALast(cs: seq<Channel>, i: nat)
    requires i < |cs|
    ensures LastChannel(cs, cs[i].name).Some?
  {
    if cs[|cs| - 1].name != cs[i].name {
      EveryChannelHasALast(cs[..|cs| - 1], i);
    }
  }

  lemma {:induction false} EverySourceHasALast(cs: seq<Source>, i: nat)
    requires i < |cs|
    ensures LastSource(cs, cs[i].name).Some?
  {
    if cs[|cs| - 1].name != cs[i].name {
      EverySourceHasALast(cs[..|cs| - 1], i);
    }
  }

  ghost predicate KeptConfig(expand: Expander, raw: Config) {
    && BracedString(expand, raw.llmUrl) && BracedString(expand, raw.llmKey)
    && (forall i | 0 <= i < |raw.channels| ::
          var last := LastChannel(raw.channels, raw.channels[i].name);
          last.Some? && KeptChannel(expand, raw.channels[i], last.value))
    && (forall i | 0 <= i < |raw.sources| ::
          var last := LastSource(raw.sources, raw.sources[i].name);
          last.Some? && KeptSource(expand, raw.sources[i], last.value))
  }

  lemma ChannelReferencesSurvive(expand: Expander, raw: Config, i: nat)
    requires i < |raw.channels|
    ensures var (live, last) := (ExpandConfig(expand, raw), LastChannel(raw.channels, raw.channels[i].name));
      && last.Some?
      && (PreserveConfig(live, raw, live).channels[i] == raw.channels[i] <==>
            KeptChannel(expand, raw.channels[i], last.value))
  {
    var (live, c) := (ExpandConfig(expand, raw), raw.channels[i]);
    EveryChannelHasALast(raw.channels, i);
    LastExpandedChannel(expand, raw, raw.channels, c.name);
    assert live.channels[..|raw.channels|] == live.channels;
    OptionsKeptIffRestored(expand, c.options, LastChannel(raw.channels, c.name).value.options);
  }

  lemma SourceReferencesSurvive(expand: Expander, raw: Config, i: nat)
    requires i < |raw.sources|
    ensures var (live, last) := (ExpandConfig(expand, raw), LastSource(raw.sources, raw.sources[i].name));
      && last.Some?
      && (PreserveConfig(live, raw, live).sources[i] == raw.sources[i] <==>
            KeptSource(expand, raw.sources[i], last.value))
  {
    var (live, c) := (ExpandConfig(expand, raw), raw.sources[i]);
    EverySourceHasALast(raw.sources, i);
    LastExpandedSource(expand, raw, raw.sources, c.name);
    assert live.sources[..|raw.sources|] == live.sources;
    OptionsKeptIffRestored(expand, c.options, LastSource(raw.sources, c.name).value.options);
  }

  /** For every configuration: an unedited write gives the file back exactly if each text is restored to itself
      from the last entry of its name, or is not restored and untouched by expansion. */
  lemma ConfigReferencesSurvive(expand: Expander, raw: Config)
    ensures var live := ExpandConfig(expand, raw);
      PreserveConfig(live, raw, live) == raw <==> KeptConfig(expand, raw)
  {
    var live := ExpandConfig(expand, raw);
    var out := PreserveConfig(live, raw, live);
    assert out.channels == raw.channels <==> forall i | 0 <= i < |raw.channels| :: out.channels[i] == raw.channels[i];
    assert out.sources == raw.sources <==> forall i | 0 <= i < |raw.sources| :: out.sources[i] == raw.sources[i];
    forall i | 0 <= i < |raw.channels|
      ensures var last := LastChannel(raw.channels, raw.channels[i].name);
        out.channels[i] == raw.channels[i] <==> last.Some? && KeptChannel(expand, raw.channels[i], last.value)
    {
      ChannelReferencesSurvive(expand, raw, i);
    }
    forall i | 0 <= i < |raw.sources|
      ensures var last := LastSource(raw.sources, raw.sources[i].name);
        out.sources[i] == raw.sources[i] <==> last.Some? && KeptSource(expand, raw.sources[i], last.value)
    {
      SourceReferencesSurvive(expand, raw, i);
    }
  }

  lemma {:induction false} KeptAloneIffBraced(expand: Expander, v: Value)
    ensures Kept(expand, v, v) <==> Braced(expand, v)
  {
    match v
    case List(xs) =>
      forall i | 0 <= i < |xs| ensures Kept(expand, xs[i], xs[i]) <==> Braced(expand, xs[i]) {
        KeptAloneIffBraced(expand, xs[i]);
      }
    case Dict(m) =>
      forall k | k in m ensures Kept(expand, m[k], m[k]) <==> Braced(expand, m[k]) {
        KeptAloneIffBraced(expand, m[k]);
      }
    case _ =>
  }

  lemma OptionsKeptAloneIffBraced(expand: Expander, m: map<string, Value>)
    ensures KeptOptions(expand, m, m) <==> BracedOptions(expand, m)
  {
    KeptAloneIffBraced(expand, Dict(m));
  }

  /** Writing back the unedited live copy of a value on its own restores the raw text exactly when every reference
      is braced. */
  lemma ReferencesSurvive(expand: Expander, raw: Value)
    ensures var live := Expand(expand, raw);
      Preserve(live, raw, live) == raw <==> Braced(expand, raw)
  {
    KeptIffRestored(expand, raw, raw);
    KeptAloneIffBraced(expand, raw);
  }

  /** With unique names that is: every reference in the file is braced. */
  lemma UniqueNamesReferencesSurvive(expand: Expander, raw: Config)
    requires DistinctChannels(raw.channels) && DistinctSources(raw.sources)
    ensures var live := ExpandConfig(expand, raw);
      PreserveConfig(live, raw, live) == raw <==> BracedConfig(expand, raw)
  {
    ConfigReferencesSurvive(expand, raw);
    forall i | 0 <= i < |raw.channels|
      ensures LastChannel(raw.channels, raw.channels[i].name) == Some(raw.channels[i])
      ensures KeptChannel(expand, raw.channels[i], raw.channels[i]) <==>
        BracedString(expand, raw.channels[i].webhook) && BracedOptions(expand, raw.channels[i].options)
    {
      UniqueChannelIsLast(raw.channels, i);
      OptionsKeptAloneIffBraced(expand, raw.channels[i].options);
    }
    forall i | 0 <= i < |raw.sources|
      ensures LastSource(raw.sources, raw.sources[i].name) == Some(raw.sources[i])
      ensures KeptSource(expand, raw.sources[i], raw.sources[i]) <==>
        BracedString(expand, raw.sources[i].url) && BracedOptions(expand, raw.sources[i].options)
    {
      UniqueSourceIsLast(raw.sources, i);
      OptionsKeptAloneIffBraced(expand, raw.sources[i].options);
    }
  }

  // ---- plain edits, and what goes wrong without the conditions ----

  predicate Plain(v: Value) {
    match v
    case Str(s) => '$' !in s
    case List(xs) => forall i | 0 <= i < |xs| :: Plain(xs[i])
    case Dict(m) => forall k | k in m :: Plain(m[k])
    case Scalar(_) => true
  }

  predicate PlainConfig(c: Config) {
    && '$' !in c.llmUrl && '$' !in c.llmKey
    && (forall i | 0 <= i < |c.channels| :: '$' !in c.channels[i].webhook && Plain(Dict(c.channels[i].options)))
    && (forall i | 0 <= i < |c.sources| :: '$' !in c.sources[i].url && Plain(Dict(c.sources[i].options)))
  }

  lemma {:induction false} PlainIsStable(expand: Expander, next: Value, raw: Value, live: Value)
    requires PlainIsFixed(expand) && Plain(next)
    ensures Fixed(expand, next) && Stable(expand, next, raw, live)
    decreases next
  {
    match next
    case Str(_) =>
    case List(xs) =>
      forall i | 0 <= i < |xs| ensures Fixed(expand, xs[i]) {
        PlainIsStable(expand, xs[i], Scalar(0), Scalar(0));
      }
      if raw.List? && live.List? {
        forall i | 0 <= i < |xs| && i < |raw.items| && i < |live.items|
          ensures Stable(expand, xs[i], raw.items[i], live.items[i])
        {
          PlainIsStable(expand, xs[i], raw.items[i], live.items[i]);
        }
      }
    case Dict(m) =>
      forall k | k in m ensures Fixed(expand, m[k]) {
        PlainIsStable(expand, m[k], Scalar(0), Scalar(0));
      }
      if raw.Dict? && live.Dict? {
        forall k | k in m && k in raw.entries && k in live.entries
          ensures Stable(expand, m[k], raw.entries[k], live.entries[k])
        {
          PlainIsStable(expand, m[k], raw.entries[k], live.entries[k]);
        }
      }
    case Scalar(_) =>
  }

  /** An edit without dollar signs always survives the round trip. */
  lemma PlainEditSurvives(expand: Expander, next: Config, raw: Config)
    requires PlainIsFixed(expand) && PlainConfig(next)
    ensures ExpandConfig(expand, PreserveConfig(next, raw, ExpandConfig(expand, raw))) == next
  {
    ConfigEditSurvives(expand, next, raw);
    forall i | 0 <= i < |next.channels|
      ensures StableChannel(expand, next.channels[i], LastChannel(raw.channels, next.channels[i].name))
    {
      var r := LastChannel(raw.channels, next.channels[i].name);
      var options := if r.Some? then r.value.options else map[];
      PlainIsStable(expand, Dict(next.channels[i].options), Dict(options), Dict(ExpandOptions(expand, options)));
    }
    forall i | 0 <= i < |next.sources|
      ensures StableSource(expand, next.sources[i], LastSource(raw.sources, next.sources[i].name))
    {
      var r := LastSource(raw.sources, next.sources[i].name);
      var options := if r.Some? then r.value.options else map[];
      PlainIsStable(expand, Dict(next.sources[i].options), Dict(options), Dict(ExpandOptions(expand, options)));
    }
  }

  /** Wherever the text has a dollar sign it has a braced reference. */
  predicate DollarsBraced(v: Value) {
    match v
    case Str(s) => '$' in s ==> HasReference(s)
    case List(xs) => forall i | 0 <= i < |xs| :: DollarsBraced(xs[i])
    case Dict(m) => forall k | k in m :: DollarsBraced(m[k])
    case Scalar(_) => true
  }

  predicate ConfigDollarsBraced(c: Config) {
    && DollarsBraced(Str(c.llmUrl)) && DollarsBraced(Str(c.llmKey))
    && (forall i | 0 <= i < |c.channels| ::
          DollarsBraced(Str(c.channels[i].webhook)) && DollarsBraced(Dict(c.channels[i].options)))
    && (forall i | 0 <= i < |c.sources| ::
          DollarsBraced(Str(c.sources[i].url)) && DollarsBraced(Dict(c.sources[i].options)))
  }

  lemma {:induction false} BracedDollarsAreBraced(expand: Expander, raw: Value)
    requires PlainIsFixed(expand) && DollarsBraced(raw)
    ensures Braced(expand, raw)
    decreases raw
  {
    match raw
    case Str(_) =>
    case List(xs) =>
      forall i | 0 <= i < |xs| ensures Braced(expand, xs[i]) {
        BracedDollarsAreBraced(expand, xs[i]);
      }
    case Dict(m) =>
      forall k | k in m ensures Braced(expand, m[k]) {
        BracedDollarsAreBraced(expand, m[k]);
      }
    case Scalar(_) =>
  }

  /** With unique names and no dollar sign outside braced texts, an unedited write keeps the file's references. */
  lemma BracedDollarsSurvive(expand: Expander, raw: Config)
    requires DistinctChannels(raw.channels) && DistinctSources(raw.sources)
    requires PlainIsFixed(expand) && ConfigDollarsBraced(raw)
    ensures var live := ExpandConfig(expand, raw); PreserveConfig(live, raw, live) == raw
  {
    UniqueNamesReferencesSurvive(expand, raw);
    forall i | 0 <= i < |raw.channels| ensures BracedOptions(expand, raw.channels[i].options) {
      BracedDollarsAreBraced(expand, Dict(raw.channels[i].options));
    }
    forall i | 0 <= i < |raw.sources| ensures BracedOptions(expand, raw.sources[i].options) {
      BracedDollarsAreBraced(expand, Dict(raw.sources[i].options));
    }
  }

  /** An environment in which KEY is "k" and every other variable is left as written. */
  function KeyExpander(s: string): string {
    if s == "$KEY" || s == "${KEY}" then "k" else s
  }

  /** An edit that contains an unbraced reference is rewritten by the reload. */
  lemma DollarEditIsRewritten()
    ensures PlainIsFixed(KeyExpander)
    ensures Expand(KeyExpander, Preserve(Str("$KEY"), Str("old"), Str("old"))) != Str("$KEY")
  {
    assert "$KEY"[0] == '$' && "${KEY}"[0] == '$';
    assert !HasReference("old") by {
      assert "old"[1..] == "ld" && "ld"[1..] == "d";
    }
  }

  /** Validation does not forbid two channels of one name, and then an unedited write loses a reference
      although every reference is braced. */
  lemma DuplicateChannelLosesReference(raw: Config)
    requires raw.channels == [Channel("c", "push", "${KEY}", map[]), Channel("c", "push", "plain", map[])]
    ensures var live := ExpandConfig(KeyExpander, raw);
      BracedConfig(KeyExpander, raw.(sources := [], llmUrl := "", llmKey := "")) &&
      PreserveConfig(live, raw, live).channels[0].webhook == "k" != raw.channels[0].webhook
  {
    var live := ExpandConfig(KeyExpander, raw);
    assert LastChannel(raw.channels, "c") == Some(raw.channels[1]);
    assert LastChannel(live.channels, "c") == Some(live.channels[1]);
    PlainHasNoReference();
  }

  lemma PlainHasNoReference()
    ensures HasReference("${KEY}") && !HasReference("plain")
  {
    assert "plain"[1..] == "lain" && "lain"[1..] == "ain" && "ain"[1..] == "in" && "in"[1..] == "n";
  }

  // ---- the loops that write into the edited copy ----

  method PreserveEnvValue(next: Value, raw: Value, live: Value) returns (out: Value)
    ensures out == Preserve(next, raw, live)
    decreases next, 1
  {
    match next
    case Str(s) =>
      if raw.Str? && live.Str? {
        return Str(PreserveString(s, raw.text, live.text));
      }
      out := next;
    case List(xs) =>
      if !raw.List? || !live.List? {
        return next;
      }
      var items := xs;
      for i := 0 to |xs|
        invariant |items| == |xs|
        invariant forall j | i <= j < |xs| :: items[j] == xs[j]
        invariant forall j | 0 <= j < i :: items[j] == Preserve(next, raw, live).items[j]
      {
        if i < |raw.items| && i < |live.items| {
          var item := PreserveEnvValue(xs[i], raw.items[i], live.items[i]);
          items := items[i := item];
        }
      }
      out := List(items);
    case Dict(m) =>
      if raw.Dict? && live.Dict? {
        var entries := PreserveEnvMap(m, raw.entries, live.entries);
        return Dict(entries);
      }
      out := next;
    case Scalar(_) =>
      out := next;
  }

  method PreserveEnvMap(next: map<string, Value>, raw: map<string, Value>, live: map<string, Value>)
      returns (out: map<string, Value>)
    ensures out == PreserveOptions(next, raw, live)
    decreases Dict(next), 0
  {
    out := next;
    var todo := next.Keys;
    while todo != {}
      invariant todo <= next.Keys == out.Keys
      invariant forall k | k in next :: out[k] == if k in todo then next[k] else PreserveOptions(next, raw, live)[k]
      decreases todo
    {
      var key :| key in todo;
      if key in raw && key in live {
        var value := PreserveEnvValue(next[key], raw[key], live[key]);
        out := out[key := value];
      }
      todo := todo - {key};
    }
  }

  method ChannelsByName(cs: seq<Channel>) returns (byName: map<string, Channel>)
    ensures forall n :: (if n in byName then Some(byName[n]) else None) == LastChannel(cs, n)
  {
    byName := map[];
    for i := 0 to |cs|
      invariant forall n :: (if n in byName then Some(byName[n]) else None) == LastChannel(cs[..i], n)
    {
      byName := byName[cs[i].name := cs[i]];
      assert cs[..i + 1][..i] == cs[..i];
    }
    assert cs[..|cs|] == cs;
  }

  method SourcesByName(cs: seq<Source>) returns (byName: map<string, Source>)
    ensures forall n :: (if n in byName then Some(byName[n]) else None) == LastSource(cs, n)
  {
    byName := map[];
    for i := 0 to |cs|
      invariant forall n :: (if n in byName then Some(byName[n]) else None) == LastSource(cs[..i], n)
    {
      byName := byName[cs[i].name := cs[i]];
      assert cs[..i + 1][..i] == cs[..i];
    }
    assert cs[..|cs|] == cs;
  }

  method PreserveChannels(edited: seq<Channel>, raw: seq<Channel>, live: seq<Channel>) returns (next: seq<Channel>)
    ensures |next| == |edited|
    ensures forall i | 0 <= i < |edited| ::
      next[i] == PreserveChannel(edited[i], LastChannel(raw, edited[i].name), LastChannel(live, edited[i].name))
  {
    var rawByName := ChannelsByName(raw);
    var liveByName := ChannelsByName(live);
    next := edited;
    for i := 0 to |edited|
      invariant |next| == |edited|
      invariant forall j | 0 <= j < i ::
        next[j] == PreserveChannel(edited[j], LastChannel(raw, edited[j].name), LastChannel(live, edited[j].name))
      invariant forall j | i <= j < |edited| :: next[j] == edited[j]
    {
      var c := next[i];
      if c.name in rawByName && c.name in liveByName {
        var r, l := rawByName[c.name], liveByName[c.name];
        assert LastChannel(raw, c.name) == Some(r) && LastChannel(live, c.name) == Some(l);
        var options := PreserveEnvMap(c.options, r.options, l.options);
        next := next[i := c.(webhook := PreserveString(c.webhook, r.webhook, l.webhook), options := options)];
      }
    }
  }

  method PreserveSources(edited: seq<Source>, raw: seq<Source>, live: seq<Source>) returns (next: seq<Source>)
    ensures |next| == |edited|
    ensures forall i | 0 <= i < |edited| ::
      next[i] == PreserveSource(edited[i], LastSource(raw, edited[i].name), LastSource(live, edited[i].name))
  {
    var rawByName := SourcesByName(raw);
    var liveByName := SourcesByName(live);
    next := edited;
    for i := 0 to |edited|
      invariant |next| == |edited|
      invariant forall j | 0 <= j < i ::
        next[j] == PreserveSource(edited[j], LastSource(raw, edited[j].name), LastSource(live, edited[j].name))
      invariant forall j | i <= j < |edited| :: next[j] == edited[j]
    {
      var c := next[i];
      if c.name in rawByName && c.name in liveByName {
        var r, l := rawByName[c.name], liveByName[c.name];
        assert LastSource(raw, c.name) == Some(r) && LastSource(live, c.name) == Some(l);
        var options := PreserveEnvMap(c.options, r.options, l.options);
        next := next[i := c.(url := PreserveString(c.url, r.url, l.url), options := options)];
      }
    }
  }

  /** preserveEnvironmentReferences: the edited copy is updated entry by entry. */
  method PreserveEnvironmentReferences(edited: Config, raw: Config, live: Config) returns (next: Config)
    ensures next == PreserveConfig(edited, raw, live)
  {
    var channels := PreserveChannels(edited.channels, raw.channels, live.channels);
    var sources := PreserveSources(edited.sources, raw.sources, live.sources);
    next := edited.(llmUrl := PreserveString(edited.llmUrl, raw.llmUrl, live.llmUrl),
                    llmKey := PreserveString(edited.llmKey, raw.llmKey, live.llmKey),
                    channels := channels, sources := sources);
    assert channels == PreserveConfig(edited, raw, live).channels;
    assert sources == PreserveConfig(edited, raw, live).sources;
  }
}
