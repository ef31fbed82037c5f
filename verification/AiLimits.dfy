/**
 The rate limits of AI evaluation: one window per typed source, one for the legacy path, and a global one
 that both paths share.
 */
module AiLimits {
  import opened Options
  import opened RateWindows

  datatype Limits = Limits(perMinute: int, global: int)

  /** NewAIFilter's defaults. A negative per-minute limit stays negative. */
  function WithDefaults(cfg: Limits): Limits {
    var perMinute := if cfg.perMinute == 0 then 10 else cfg.perMinute;
    Limits(perMinute, if cfg.global <= 0 then perMinute * 4 else cfg.global)
  }

  /** Ten calls a minute where none are configured, four times as many for all together, and nothing else changes. */
  lemma DefaultLimits(cfg: Limits)
    ensures var r := WithDefaults(cfg);
      && r.perMinute == (if cfg.perMinute == 0 then 10 else cfg.perMinute)
      && (cfg.global <= 0 ==> r.global == 4 * r.perMinute) && (cfg.global > 0 ==> r.global == cfg.global)
  {
  }

  datatype State = State(limits: Limits, global: Window, legacy: Window, typed: map<string, Window>)

  function Initial(cfg: Limits): State {
    State(WithDefaults(cfg), Unstarted, Unstarted, map[])
  }

  datatype Call = Typed(source: string, now: Time) | Legacy(now: Time)

  function WindowOf(s: State, source: string): Window {
    if source in s.typed then s.typed[source] else Unstarted
  }

  function Counted(w: Window): Window {
    w.(count := w.count + 1)
  }

  /** allowTypedEval: a refusal by the global window keeps that window's reset but not the source's. */
  function TypedStep(s: State, source: string, now: Time): (State, bool) {
    var own := Rolled(WindowOf(s, source), now, false);
    var global := Rolled(s.global, now, false);
    if own.count >= s.limits.perMinute then (s, false)
    else if global.count >= s.limits.global then (s.(global := global), false)
    else (s.(typed := s.typed[source := Counted(own)], global := Counted(global)), true)
  }

  /** allowEval: both windows roll before either is checked. */
  function LegacyStep(s: State, now: Time): (State, bool) {
    var legacy := Rolled(s.legacy, now, false);
    var global := Rolled(s.global, now, false);
    if legacy.count >= s.limits.perMinute || global.count >= s.limits.global
    then (s.(legacy := legacy, global := global), false)
    else (s.(legacy := Counted(legacy), global := Counted(global)), true)
  }

  function Step(s: State, c: Call): (State, bool) {
    match c
    case Typed(source, now) => TypedStep(s, source, now)
    case Legacy(now) => LegacyStep(s, now)
  }

  function Run(cfg: Limits, calls: seq<Call>): State {
    if calls == [] then Initial(cfg) else Step(Run(cfg, calls[..|calls| - 1]), calls[|calls| - 1]).0
  }

  predicate Clocked(calls: seq<Call>) {
    forall i, j | 0 <= i < j < |calls| :: calls[i].now <= calls[j].now
  }

  // ---- who is counted where ----

  datatype Group = Everyone | TypedFrom(source: string) | LegacyOnly

  predicate Belongs(c: Call, g: Group) {
    match g
    case Everyone => true
    case TypedFrom(source) => c.Typed? && c.source == source
    case LegacyOnly => c.Legacy?
  }

  function GroupWindow(s: State, g: Group): Window {
    match g
    case Everyone => s.global
    case TypedFrom(source) => WindowOf(s, source)
    case LegacyOnly => s.legacy
  }

  function GroupLimit(limits: Limits, g: Group): int {
    if g.Everyone? then limits.global else limits.perMinute
  }

  /** What one call adds to the log of a group: its time, if it is admitted, with the window that counts it. */
  function Logged(s: State, c: Call, g: Group): seq<Admission> {
    var (after, ok) := Step(s, c);
    if ok && Belongs(c, g) && GroupWindow(after, g).start.Some?
    then [Admission(c.now, GroupWindow(after, g).start.value)]
    else []
  }

  /** The admitted calls of a group, in order. */
  function Admitted(cfg: Limits, calls: seq<Call>, g: Group): seq<Admission> {
    if calls == [] then []
    else
      Admitted(cfg, calls[..|calls| - 1], g) + Logged(Run(cfg, calls[..|calls| - 1]), calls[|calls| - 1], g)
  }

  /** An admitted call is always in a started window: the log of its groups grows by exactly its time. */
  lemma AdmissionIsLogged(s: State, c: Call, g: Group)
    ensures |Logged(s, c, g)| == (if Step(s, c).1 && Belongs(c, g) then 1 else 0)
    ensures Logged(s, c, g) != [] ==> Logged(s, c, g)[0].time == c.now
  {
  }

  lemma {:induction false} LimitsStay(cfg: Limits, calls: seq<Call>)
    ensures Run(cfg, calls).limits == WithDefaults(cfg)
  {
    if calls != [] {
      LimitsStay(cfg, calls[..|calls| - 1]);
    }
  }

  /** What one call does to the window of a group. */
  lemma StepWindow(s: State, c: Call, g: Group)
    ensures var (w, after) := (GroupWindow(s, g), GroupWindow(Step(s, c).0, g));
      var rolled := Rolled(w, c.now, false);
      if Logged(s, c, g) == [] then after == w || after == rolled
      else after == Counted(rolled) && rolled.count < GroupLimit(s.limits, g)
           && Logged(s, c, g) == [Admission(c.now, rolled.start.value)]
  {
  }

  lemma StepFits(s: State, c: Call, g: Group, log: seq<Admission>)
    requires Fits(log, GroupWindow(s, g), GroupLimit(s.limits, g), c.now, false)
    ensures Fits(log + Logged(s, c, g), GroupWindow(Step(s, c).0, g), GroupLimit(s.limits, g), c.now, false)
  {
    StepWindow(s, c, g);
    var (w, limit, more) := (GroupWindow(s, g), GroupLimit(s.limits, g), Logged(s, c, g));
    WindowFits(w, GroupWindow(Step(s, c).0, g), limit, c.now, log, more);
  }

  lemma WindowFits(w: Window, after: Window, limit: int, now: Time, log: seq<Admission>, more: seq<Admission>)
    requires Fits(log, w, limit, now, false)
    requires var rolled := Rolled(w, now, false);
      if more == [] then after == w || after == rolled
      else after == Counted(rolled) && rolled.count < limit && more == [Admission(now, rolled.start.value)]
    ensures Fits(log + more, after, limit, now, false)
  {
    RolledFits(log, w, limit, now, false);
    if more == [] {
      assert log + more == log;
    } else {
      AdmittedFits(log, Rolled(w, now, false), limit, now, false);
    }
  }

  lemma {:induction false} RunFits(cfg: Limits, calls: seq<Call>, g: Group, now: Time)
    requires Clocked(calls) && (forall i | 0 <= i < |calls| :: calls[i].now <= now)
    ensures Fits(Admitted(cfg, calls, g), GroupWindow(Run(cfg, calls), g), GroupLimit(WithDefaults(cfg), g), now, false)
  {
    if calls != [] {
      var (before, c) := (calls[..|calls| - 1], calls[|calls| - 1]);
      RunFits(cfg, before, g, c.now);
      LimitsStay(cfg, before);
      StepFits(Run(cfg, before), c, g, Admitted(cfg, before, g));
      LaterFits(Admitted(cfg, calls, g), GroupWindow(Run(cfg, calls), g), GroupLimit(WithDefaults(cfg), g),
                c.now, now, false);
    }
  }

  /** However typed and legacy calls mix, any minute admits at most twice the global limit in all, and twice
      the per-minute limit for each typed source and for the legacy path. */
  lemma AnyMinuteIsBounded(cfg: Limits, calls: seq<Call>, g: Group, from: Time)
    requires Clocked(calls)
    ensures var limit := GroupLimit(WithDefaults(cfg), g);
      InMinute(Admitted(cfg, calls, g), from) <= 2 * (if limit > 0 then limit else 0)
  {
    RunFits(cfg, calls, g, if calls == [] then 0 else calls[|calls| - 1].now);
    AnyMinute(Admitted(cfg, calls, g), GroupLimit(WithDefaults(cfg), g), from);
  }

  lemma StepCountsExactly(s: State, c: Call, g: Group, log: seq<Admission>)
    requires Fits(log, GroupWindow(s, g), GroupLimit(s.limits, g), c.now, false) && CountsExactly(log, GroupWindow(s, g))
    ensures CountsExactly(log + Logged(s, c, g), GroupWindow(Step(s, c).0, g))
  {
    StepWindow(s, c, g);
    WindowCountsExactly(GroupWindow(s, g), GroupWindow(Step(s, c).0, g), GroupLimit(s.limits, g), c.now, log, Logged(s, c, g));
  }

  lemma WindowCountsExactly(w: Window, after: Window, limit: int, now: Time, log: seq<Admission>, more: seq<Admission>)
    requires Fits(log, w, limit, now, false) && CountsExactly(log, w)
    requires var rolled := Rolled(w, now, false);
      if more == [] then after == w || after == rolled
      else after == Counted(rolled) && more == [Admission(now, rolled.start.value)]
    ensures CountsExactly(log + more, after)
  {
    var rolled := Rolled(w, now, false);
    if rolled != w {
      forall i | 0 <= i < |log| ensures log[i].window != now {
        assert Follows(log[i], w.start.value);
      }
      NoneInNewWindow(log, now);
    }
    assert CountsExactly(log, rolled);
    if more == [] {
      assert log + more == log;
    } else {
      assert (log + more)[..|log|] == log;
    }
  }

  lemma {:induction false} RunCountsExactly(cfg: Limits, calls: seq<Call>, g: Group)
    requires Clocked(calls)
    ensures CountsExactly(Admitted(cfg, calls, g), GroupWindow(Run(cfg, calls), g))
  {
    if calls != [] {
      var (before, c) := (calls[..|calls| - 1], calls[|calls| - 1]);
      RunCountsExactly(cfg, before, g);
      RunFits(cfg, before, g, c.now);
      LimitsStay(cfg, before);
      StepCountsExactly(Run(cfg, before), c, g, Admitted(cfg, before, g));
    }
  }

  predicate UsedUp(cfg: Limits, calls: seq<Call>, g: Group, now: Time) {
    InMinute(Admitted(cfg, calls, g), now - Minute) >= GroupLimit(WithDefaults(cfg), g)
  }

  lemma FullIsUsedUp(cfg: Limits, calls: seq<Call>, g: Group, now: Time)
    requires Clocked(calls) && (forall i | 0 <= i < |calls| :: calls[i].now <= now)
    requires Rolled(GroupWindow(Run(cfg, calls), g), now, false).count >= GroupLimit(WithDefaults(cfg), g)
    ensures UsedUp(cfg, calls, g, now)
  {
    RunFits(cfg, calls, g, now);
    RunCountsExactly(cfg, calls, g);
    FullWindowIsFullMinute(Admitted(cfg, calls, g), GroupWindow(Run(cfg, calls), g),
                           GroupLimit(WithDefaults(cfg), g), now, false);
  }

  /** Nobody is refused without cause: a refused call comes at the end of a minute in which its own group or
      everybody together used up the limit. */
  lemma RefusalIsEarned(cfg: Limits, calls: seq<Call>, s: State, c: Call)
    requires Clocked(calls) && (forall i | 0 <= i < |calls| :: calls[i].now <= c.now)
    requires s == Run(cfg, calls) && !Step(s, c).1
    ensures UsedUp(cfg, calls, Everyone, c.now)
         || UsedUp(cfg, calls, if c.Typed? then TypedFrom(c.source) else LegacyOnly, c.now)
  {
    LimitsStay(cfg, calls);
    var g := FullGroup(s, c);
    FullIsUsedUp(cfg, calls, g, c.now);
  }

  lemma FullGroup(s: State, c: Call) returns (g: Group)
    requires !Step(s, c).1
    ensures g == (if c.Typed? then TypedFrom(c.source) else LegacyOnly) || g == Everyone
    ensures Rolled(GroupWindow(s, g), c.now, false).count >= GroupLimit(s.limits, g)
  {
    g := if c.Typed? then TypedFrom(c.source) else LegacyOnly;
    if Rolled(GroupWindow(s, g), c.now, false).count < s.limits.perMinute {
      g := Everyone;
    }
  }

  /** Every admission of a group is one of everybody's, so the global log loses none. */
  lemma {:induction false} GroupsShareGlobal(cfg: Limits, calls: seq<Call>, g: Group, from: Time)
    ensures InMinute(Admitted(cfg, calls, g), from) <= InMinute(Admitted(cfg, calls, Everyone), from)
  {
    if calls != [] {
      var before := calls[..|calls| - 1];
      GroupsShareGlobal(cfg, before, g, from);
      var (s, c) := (Run(cfg, before), calls[|calls| - 1]);
      AdmissionIsLogged(s, c, g);
      AdmissionIsLogged(s, c, Everyone);
      InMinuteOfOneMore(Admitted(cfg, before, g), Logged(s, c, g), from);
      InMinuteOfOneMore(Admitted(cfg, before, Everyone), Logged(s, c, Everyone), from);
    }
  }

  // ---- the factor two is reached ----

  /** A name of its own for every number. */
  function Name(i: nat): string {
    seq(i, _ => 'a')
  }

  /** The i-th call of a burst that belongs to the group; where everybody counts, each comes from a new source. */
  function CallOf(g: Group, i: nat, t: Time): (c: Call)
    ensures c.now == t
  {
    match g
    case Everyone => Typed(Name(i), t)
    case TypedFrom(source) => Typed(source, t)
    case LegacyOnly => Legacy(t)
  }

  /** Two bursts of `n` calls at both ends of a minute. */
  function TwoBursts(g: Group, n: nat, t: Time): seq<Call> {
    seq(n + n, i requires 0 <= i < n + n => if i < n then CallOf(g, i, t) else CallOf(g, i - n, t + Minute))
  }

  predicate OldAt(w: Window, t: Time) {
    w.start.None? || Expired(w.start.value, t, false)
  }

  ghost predicate AllOld(s: State, t: Time) {
    OldAt(s.global, t) && OldAt(s.legacy, t) && forall source :: OldAt(WindowOf(s, source), t)
  }

  /** The group's calls fit into the limits in use. */
  predicate Attainable(limits: Limits, g: Group) {
    0 < limits.perMinute && 0 < limits.global && GroupLimit(limits, g) <= limits.global
  }

  /** The state after `n` calls of a burst at `t` that began in state `s`. */
  ghost predicate AfterBurst(s: State, after: State, g: Group, n: nat, t: Time) {
    && after.limits == s.limits
    && (n == 0 ==> after == s)
    && (n > 0 ==> after.global == Window(Some(t), n) && (!g.Everyone? ==> GroupWindow(after, g) == Window(Some(t), n)))
    && (g.Everyone? ==> forall i: nat | i >= n :: WindowOf(after, Name(i)) == WindowOf(s, Name(i)))
    && (after.legacy == s.legacy || after.legacy.start == Some(t))
    && (forall source :: WindowOf(after, source) == WindowOf(s, source) || WindowOf(after, source).start == Some(t))
  }

  lemma NamesDiffer()
    ensures forall i: nat, j: nat {:trigger Name(i), Name(j)} | i != j :: Name(i) != Name(j)
  {
    assert forall i: nat {:trigger Name(i)} :: |Name(i)| == i;
  }

  lemma BurstStep(s: State, before: State, g: Group, k: nat, t: Time)
    requires AllOld(s, t) && AfterBurst(s, before, g, k, t)
    requires Attainable(s.limits, g) && k < GroupLimit(s.limits, g)
    ensures Step(before, CallOf(g, k, t)).1
    ensures Logged(before, CallOf(g, k, t), g) == [Admission(t, t)]
    ensures AfterBurst(s, Step(before, CallOf(g, k, t)).0, g, k + 1, t)
  {
    NamesDiffer();
    assert OldAt(GroupWindow(s, if g.Everyone? then TypedFrom(Name(k)) else g), t);
  }

  /** The state after the first `n` calls. */
  function RunUpTo(cfg: Limits, calls: seq<Call>, n: nat): State
    requires n <= |calls|
  {
    if n == 0 then Initial(cfg) else Step(RunUpTo(cfg, calls, n - 1), calls[n - 1]).0
  }

  /** How many of the first `n` calls a group logs in the minute. */
  function CountUpTo(cfg: Limits, calls: seq<Call>, n: nat, g: Group, from: Time): nat
    requires n <= |calls|
  {
    if n == 0 then 0
    else
      CountUpTo(cfg, calls, n - 1, g, from) +
      (if InMinuteAt(Logged(RunUpTo(cfg, calls, n - 1), calls[n - 1], g), from) then 1 else 0)
  }

  predicate InMinuteAt(logged: seq<Admission>, from: Time) {
    logged != [] && from <= logged[0].time <= from + Minute
  }

  lemma {:induction false} UpToPrefix(cfg: Limits, calls: seq<Call>, front: seq<Call>, n: nat, g: Group, from: Time)
    requires n <= |front| && front <= calls
    ensures RunUpTo(cfg, front, n) == RunUpTo(cfg, calls, n)
    ensures CountUpTo(cfg, front, n, g, from) == CountUpTo(cfg, calls, n, g, from)
  {
    if n > 0 {
      UpToPrefix(cfg, calls, front, n - 1, g, from);
    }
  }

  /** What a last call adds to the count of the minute. */
  lemma CountLast(cfg: Limits, calls: seq<Call>, front: seq<Call>, last: Call, g: Group, from: Time)
    requires calls != [] && front == calls[..|calls| - 1] && last == calls[|calls| - 1]
    ensures InMinute(Admitted(cfg, calls, g), from) ==
      InMinute(Admitted(cfg, front, g), from) + if InMinuteAt(Logged(Run(cfg, front), last, g), from) then 1 else 0
  {
    AdmissionIsLogged(Run(cfg, front), last, g);
    InMinuteOfOneMore(Admitted(cfg, front, g), Logged(Run(cfg, front), last, g), from);
  }

  lemma {:induction false} RunIsUpTo(cfg: Limits, calls: seq<Call>)
    ensures Run(cfg, calls) == RunUpTo(cfg, calls, |calls|)
  {
    if calls != [] {
      var front := calls[..|calls| - 1];
      RunIsUpTo(cfg, front);
      UpToPrefix(cfg, calls, front, |front|, Everyone, 0);
    }
  }

  lemma CountUpToLast(cfg: Limits, calls: seq<Call>, front: seq<Call>, last: Call, g: Group, from: Time)
    requires calls != [] && front == calls[..|calls| - 1] && last == calls[|calls| - 1]
    ensures CountUpTo(cfg, calls, |calls|, g, from) ==
      CountUpTo(cfg, front, |front|, g, from) + if InMinuteAt(Logged(Run(cfg, front), last, g), from) then 1 else 0
  {
    UpToPrefix(cfg, calls, front, |front|, g, from);
    RunIsUpTo(cfg, front);
  }

  lemma {:induction false} CountIsUpTo(cfg: Limits, calls: seq<Call>, n: nat, g: Group, from: Time)
    requires n == |calls|
    ensures InMinute(Admitted(cfg, calls, g), from) == CountUpTo(cfg, calls, n, g, from)
  {
    if n > 0 {
      var (front, last) := (calls[..n - 1], calls[n - 1]);
      CountIsUpTo(cfg, front, n - 1, g, from);
      CountLast(cfg, calls, front, last, g, from);
      CountUpToLast(cfg, calls, front, last, g, from);
    }
  }

  lemma {:induction false} LimitsStayUpTo(cfg: Limits, calls: seq<Call>, n: nat)
    requires n <= |calls|
    ensures RunUpTo(cfg, calls, n).limits == WithDefaults(cfg)
  {
    if n > 0 {
      LimitsStayUpTo(cfg, calls, n - 1);
    }
  }

  /** From the call at `base` on, the calls begin with a burst of `n`. */
  predicate BurstAt(calls: seq<Call>, base: nat, g: Group, n: nat, t: Time) {
    base + n <= |calls| && forall i: nat | i < n :: calls[base + i] == CallOf(g, i, t)
  }

  /** A burst after any calls whose windows are over passes whole. */
  lemma {:induction false} BurstPasses(
      cfg: Limits, calls: seq<Call>, base: nat, s: State, g: Group, n: nat, t: Time, from: Time)
    requires BurstAt(calls, base, g, n, t) && s == RunUpTo(cfg, calls, base)
    requires AllOld(s, t) && Attainable(s.limits, g) && n <= GroupLimit(s.limits, g) && from <= t <= from + Minute
    ensures AfterBurst(s, RunUpTo(cfg, calls, base + n), g, n, t)
    ensures CountUpTo(cfg, calls, base + n, g, from) == CountUpTo(cfg, calls, base, g, from) + n
  {
    if n > 0 {
      BurstPasses(cfg, calls, base, s, g, n - 1, t, from);
      assert calls[base + (n - 1)] == CallOf(g, n - 1, t);
      BurstStep(s, RunUpTo(cfg, calls, base + n - 1), g, n - 1, t);
    }
  }

  lemma BothBurstsPass(cfg: Limits, calls: seq<Call>, g: Group, n: nat, t: Time)
    requires Attainable(WithDefaults(cfg), g) && n == GroupLimit(WithDefaults(cfg), g)
    requires BurstAt(calls, 0, g, n, t) && BurstAt(calls, n, g, n, t + Minute)
    ensures CountUpTo(cfg, calls, n + n, g, t) == n + n
  {
    FirstBurst(cfg, calls, g, n, t);
    LimitsStayUpTo(cfg, calls, n);
    BurstCounts(cfg, calls, n, g, n, t + Minute, t);
  }

  lemma BurstCounts(cfg: Limits, calls: seq<Call>, base: nat, g: Group, n: nat, t: Time, from: Time)
    requires BurstAt(calls, base, g, n, t) && from <= t <= from + Minute
    requires AllOld(RunUpTo(cfg, calls, base), t) && Attainable(RunUpTo(cfg, calls, base).limits, g)
    requires n <= GroupLimit(RunUpTo(cfg, calls, base).limits, g)
    ensures CountUpTo(cfg, calls, base + n, g, from) == CountUpTo(cfg, calls, base, g, from) + n
  {
    BurstPasses(cfg, calls, base, RunUpTo(cfg, calls, base), g, n, t, from);
  }

  /** For any limits and each group they let use its limit up: a burst at both ends of a minute passes whole. */
  lemma TwiceIsReached(cfg: Limits, g: Group, t: Time)
    requires Attainable(WithDefaults(cfg), g)
    ensures var n: nat := GroupLimit(WithDefaults(cfg), g);
      var calls := TwoBursts(g, n, t);
      Clocked(calls) && InMinute(Admitted(cfg, calls, g), t) == 2 * n
  {
    var n: nat := GroupLimit(WithDefaults(cfg), g);
    BurstsAreClocked(g, n, t);
    BothBurstsCount(cfg, TwoBursts(g, n, t), g, n, t);
  }

  lemma BurstsAreClocked(g: Group, n: nat, t: Time)
    ensures var calls := TwoBursts(g, n, t);
      && Clocked(calls) && |calls| == n + n && BurstAt(calls, 0, g, n, t) && BurstAt(calls, n, g, n, t + Minute)
  {
    var calls := TwoBursts(g, n, t);
    forall i: nat | i < n ensures calls[0 + i] == CallOf(g, i, t) && calls[n + i] == CallOf(g, i, t + Minute) {
      var j := n + i;
      assert n <= j < n + n && j - n == i;
      assert calls[j] == CallOf(g, j - n, t + Minute);
    }
    forall i | 0 <= i < |calls| ensures calls[i].now == if i < n then t else t + Minute {
      assert calls[i] == if i < n then CallOf(g, i, t) else CallOf(g, i - n, t + Minute);
    }
  }

  lemma BothBurstsCount(cfg: Limits, calls: seq<Call>, g: Group, n: nat, t: Time)
    requires Attainable(WithDefaults(cfg), g) && n == GroupLimit(WithDefaults(cfg), g) && |calls| == n + n
    requires BurstAt(calls, 0, g, n, t) && BurstAt(calls, n, g, n, t + Minute)
    ensures InMinute(Admitted(cfg, calls, g), t) == n + n
  {
    BothBurstsPass(cfg, calls, g, n, t);
    CountIsUpTo(cfg, calls, n + n, g, t);
  }

  lemma FirstBurst(cfg: Limits, calls: seq<Call>, g: Group, n: nat, t: Time)
    requires Attainable(WithDefaults(cfg), g) && 0 < n <= GroupLimit(WithDefaults(cfg), g) && BurstAt(calls, 0, g, n, t)
    ensures AllOld(RunUpTo(cfg, calls, n), t + Minute)
    ensures CountUpTo(cfg, calls, n, g, t) == n
  {
    BurstPasses(cfg, calls, 0, Initial(cfg), g, n, t, t);
    BurstIsOld(Initial(cfg), RunUpTo(cfg, calls, n), g, n, t);
  }

  lemma BurstIsOld(s: State, after: State, g: Group, n: nat, t: Time)
    requires AfterBurst(s, after, g, n, t) && n > 0 && s.legacy == Unstarted && s.typed == map[]
    ensures AllOld(after, t + Minute)
  {
  }

  // ---- the filter's own fields ----

  class AIFilter {
    const limits: Limits
    var windowStart: Option<Time>
    var count: nat
    var legacyStart: Option<Time>
    var legacyCount: nat
    var typedWindows: map<string, Window>

    ghost function Model(): State
      reads this
    {
      State(limits, Window(windowStart, count), Window(legacyStart, legacyCount), typedWindows)
    }

    constructor (cfg: Limits)
      ensures Model() == Initial(cfg)
    {
      var perMinute := if cfg.perMinute == 0 then 10 else cfg.perMinute;
      limits := Limits(perMinute, if cfg.global <= 0 then perMinute * 4 else cfg.global);
      windowStart, count := None, 0;
      legacyStart, legacyCount := None, 0;
      typedWindows := map[];
    }

    method AllowTypedEval(source: string, now: Time) returns (ok: bool)
      modifies this
      ensures (Model(), ok) == TypedStep(old(Model()), source, now)
    {
      var window := Unstarted;
      if source in typedWindows {
        window := typedWindows[source];
      }
      if window.start.None? || now - window.start.value >= Minute {
        window := Window(Some(now), 0);
      }
      if window.count >= limits.perMinute {
        return false;
      }
      if windowStart.None? || now - windowStart.value >= Minute {
        windowStart, count := Some(now), 0;
      }
      if count >= limits.global {
        return false;
      }
      typedWindows := typedWindows[source := window.(count := window.count + 1)];
      count := count + 1;
      return true;
    }

    method AllowEval(now: Time) returns (ok: bool)
      modifies this
      ensures (Model(), ok) == LegacyStep(old(Model()), now)
    {
      if legacyStart.None? || now - legacyStart.value >= Minute {
        legacyStart, legacyCount := Some(now), 0;
      }
      if windowStart.None? || now - windowStart.value >= Minute {
        windowStart, count := Some(now), 0;
      }
      if legacyCount >= limits.perMinute || count >= limits.global {
        return false;
      }
      legacyCount := legacyCount + 1;
      count := count + 1;
      return true;
    }
  }
}
