/**
 The per-(source, sink) rate limit: the rule that applies to a pair, and the counters that enforce it.
 */
module RateLimit {
  import opened Options
  import opened RateWindows

  datatype Rule = Rule(source: string, sink: string, maxPerMinute: int)

  /** How well a rule fits a pair: 0 is best, 4 is not at all. */
  function Rank(r: Rule, source: string, sink: string): nat {
    if r.source == source && r.sink == sink then 0
    else if r.source == source && r.sink == "*" then 1
    else if r.source == "*" && r.sink == sink then 2
    else if r.source == "*" && r.sink == "*" then 3
    else 4
  }

  function FirstMatch(rules: seq<Rule>, source: string, sink: string): Option<Rule> {
    if rules == [] then None
    else if rules[0].source == source && rules[0].sink == sink then Some(rules[0])
    else FirstMatch(rules[1..], source, sink)
  }

  function BestRule(rules: seq<Rule>, source: string, sink: string): Option<Rule> {
    var exact := FirstMatch(rules, source, sink);
    var bySource := FirstMatch(rules, source, "*");
    var bySink := FirstMatch(rules, "*", sink);
    if exact.Some? then exact else if bySource.Some? then bySource else if bySink.Some? then bySink
    else FirstMatch(rules, "*", "*")
  }

  predicate Matches(r: Rule, source: string, sink: string) {
    r.source == source && r.sink == sink
  }

  ghost predicate IsFirstMatch(rules: seq<Rule>, source: string, sink: string, i: nat) {
    i < |rules| && Matches(rules[i], source, sink) && forall j | 0 <= j < i :: !Matches(rules[j], source, sink)
  }

  lemma {:induction false} FirstMatchIsFirst(rules: seq<Rule>, source: string, sink: string)
    ensures var rule := FirstMatch(rules, source, sink);
      if rule.None? then forall j | 0 <= j < |rules| :: !Matches(rules[j], source, sink)
      else exists i: nat :: IsFirstMatch(rules, source, sink, i) && rule.value == rules[i]
  {
    if rules != [] && !Matches(rules[0], source, sink) {
      FirstMatchIsFirst(rules[1..], source, sink);
      assert forall j | 0 < j < |rules| :: rules[j] == rules[1..][j - 1];
      var rule := FirstMatch(rules[1..], source, sink);
      if rule.Some? {
        var i: nat :| IsFirstMatch(rules[1..], source, sink, i) && rule.value == rules[1..][i];
        assert rules[i + 1] == rules[1..][i];
        assert IsFirstMatch(rules, source, sink, i + 1);
      }
    } else if rules != [] {
      assert IsFirstMatch(rules, source, sink, 0);
    }
  }

  /** Rule `i` fits the pair, no rule fits it better, and no earlier rule fits it as well. */
  ghost predicate IsBest(rules: seq<Rule>, source: string, sink: string, i: nat) {
    && i < |rules| && Rank(rules[i], source, sink) < 4
    && (forall j | 0 <= j < |rules| :: Rank(rules[j], source, sink) >= Rank(rules[i], source, sink))
    && (forall j | 0 <= j < i :: Rank(rules[j], source, sink) != Rank(rules[i], source, sink))
  }

  lemma BestRuleIsBest(rules: seq<Rule>, source: string, sink: string)
    ensures BestRule(rules, source, sink).None? <==> forall j | 0 <= j < |rules| :: Rank(rules[j], source, sink) == 4
    ensures BestRule(rules, source, sink).Some? ==>
      exists i: nat :: IsBest(rules, source, sink, i) && BestRule(rules, source, sink).value == rules[i]
  {
    FirstMatchIsFirst(rules, source, sink);
    FirstMatchIsFirst(rules, source, "*");
    FirstMatchIsFirst(rules, "*", sink);
    FirstMatchIsFirst(rules, "*", "*");
    forall j | 0 <= j < |rules|
      ensures Rank(rules[j], source, sink) == 0 <==> Matches(rules[j], source, sink)
      ensures Rank(rules[j], source, sink) == 1 ==> Matches(rules[j], source, "*")
      ensures Rank(rules[j], source, sink) == 2 ==> Matches(rules[j], "*", sink)
      ensures Rank(rules[j], source, sink) == 3 ==> Matches(rules[j], "*", "*")
      ensures Rank(rules[j], source, sink) == 4 ==>
        !Matches(rules[j], source, "*") && !Matches(rules[j], "*", sink) && !Matches(rules[j], "*", "*")
    {
    }
    var best := BestRule(rules, source, sink);
    if best.Some? {
      var (a, b) :=
        if FirstMatch(rules, source, sink).Some? then (source, sink)
        else if FirstMatch(rules, source, "*").Some? then (source, "*")
        else if FirstMatch(rules, "*", sink).Some? then ("*", sink)
        else ("*", "*");
      var i: nat :| IsFirstMatch(rules, a, b, i) && best.value == rules[i];
      assert IsBest(rules, source, sink, i);
    }
  }

  /** findRule: four passes over the rules, the most specific kind first. */
  method FindRule(rules: seq<Rule>, source: string, sink: string) returns (rule: Option<Rule>)
    ensures rule == BestRule(rules, source, sink)
  {
    for i := 0 to |rules|
      invariant FirstMatch(rules, source, sink) == FirstMatch(rules[i..], source, sink)
    {
      if rules[i].source == source && rules[i].sink == sink {
        return Some(rules[i]);
      }
    }
    for i := 0 to |rules|
      invariant FirstMatch(rules, source, "*") == FirstMatch(rules[i..], source, "*")
    {
      if rules[i].source == source && rules[i].sink == "*" {
        return Some(rules[i]);
      }
    }
    for i := 0 to |rules|
      invariant FirstMatch(rules, "*", sink) == FirstMatch(rules[i..], "*", sink)
    {
      if rules[i].source == "*" && rules[i].sink == sink {
        return Some(rules[i]);
      }
    }
    for i := 0 to |rules|
      invariant FirstMatch(rules, "*", "*") == FirstMatch(rules[i..], "*", "*")
    {
      if rules[i].source == "*" && rules[i].sink == "*" {
        return Some(rules[i]);
      }
    }
    return None;
  }

  // ---- the counters ----

  /** Two pairs may share a key when a name contains the separator; they then share one counter. */
  function Key(source: string, sink: string): string {
    source + "|" + sink
  }

  datatype Counter = Counter(count: nat, resetTime: Time)

  datatype State = State(rules: seq<Rule>, counters: map<string, Counter>)

  datatype Call = Call(source: string, sink: string, critical: bool, now: Time)

  function CounterOf(s: State, key: string): Window {
    if key in s.counters then Window(Some(s.counters[key].resetTime - Minute), s.counters[key].count) else Unstarted
  }

  function AsCounter(w: Window): Counter
    requires w.start.Some?
  {
    Counter(w.count, w.start.value + Minute)
  }

  /** ShouldFilter, the result being whether the message is held back. */
  function Step(s: State, c: Call): (State, bool) {
    var rule := BestRule(s.rules, c.source, c.sink);
    if c.critical || rule.None? then (s, false)
    else
      var key := Key(c.source, c.sink);
      var w := Rolled(CounterOf(s, key), c.now, true);
      if w.count >= rule.value.maxPerMinute then (s.(counters := s.counters[key := AsCounter(w)]), true)
      else (s.(counters := s.counters[key := AsCounter(w.(count := w.count + 1))]), false)
  }

  function Run(rules: seq<Rule>, calls: seq<Call>): State {
    if calls == [] then State(rules, map[]) else Step(Run(rules, calls[..|calls| - 1]), calls[|calls| - 1]).0
  }

  predicate Clocked(calls: seq<Call>) {
    forall i, j | 0 <= i < j < |calls| :: calls[i].now <= calls[j].now
  }

  predicate Counts(c: Call, source: string, sink: string) {
    !c.critical && c.source == source && c.sink == sink
  }

  function Logged(s: State, c: Call, source: string, sink: string): seq<Admission> {
    var (after, held) := Step(s, c);
    var w := CounterOf(after, Key(source, sink));
    if !held && Counts(c, source, sink) && w.start.Some? then [Admission(c.now, w.start.value)] else []
  }

  /** The messages of one pair that passed and were not critical, with their times. */
  function Passed(rules: seq<Rule>, calls: seq<Call>, source: string, sink: string): seq<Admission> {
    if calls == [] then []
    else
      var before := calls[..|calls| - 1];
      Passed(rules, before, source, sink) + Logged(Run(rules, before), calls[|calls| - 1], source, sink)
  }

  /** Under a rule no passing message is missed by the log. */
  lemma PassIsLogged(s: State, c: Call, source: string, sink: string)
    requires BestRule(s.rules, source, sink).Some?
    ensures |Logged(s, c, source, sink)| == (if !Step(s, c).1 && Counts(c, source, sink) then 1 else 0)
    ensures Logged(s, c, source, sink) != [] ==> Logged(s, c, source, sink)[0].time == c.now
  {
  }

  lemma {:induction false} RulesStay(rules: seq<Rule>, calls: seq<Call>)
    ensures Run(rules, calls).rules == rules
  {
    if calls != [] {
      RulesStay(rules, calls[..|calls| - 1]);
    }
  }

  /** What one call does to the counter of a pair. */
  lemma StepCounter(s: State, c: Call, source: string, sink: string)
    requires BestRule(s.rules, source, sink).Some?
    ensures var rolled := Rolled(CounterOf(s, Key(source, sink)), c.now, true);
      var w := CounterOf(Step(s, c).0, Key(source, sink));
      if Logged(s, c, source, sink) == []
      then w == CounterOf(s, Key(source, sink)) || w == rolled || w == rolled.(count := rolled.count + 1)
      else w == rolled.(count := rolled.count + 1) && rolled.count < BestRule(s.rules, source, sink).value.maxPerMinute
           && Logged(s, c, source, sink) == [Admission(c.now, rolled.start.value)]
  {
  }

  lemma StepFits(s: State, c: Call, source: string, sink: string, log: seq<Admission>)
    requires BestRule(s.rules, source, sink).Some?
    requires Fits(log, CounterOf(s, Key(source, sink)), BestRule(s.rules, source, sink).value.maxPerMinute, c.now, true)
    ensures Fits(log + Logged(s, c, source, sink), CounterOf(Step(s, c).0, Key(source, sink)),
                 BestRule(s.rules, source, sink).value.maxPerMinute, c.now, true)
  {
    var limit := BestRule(s.rules, source, sink).value.maxPerMinute;
    var rolled := Rolled(CounterOf(s, Key(source, sink)), c.now, true);
    RolledFits(log, CounterOf(s, Key(source, sink)), limit, c.now, true);
    StepCounter(s, c, source, sink);
    if Logged(s, c, source, sink) == [] {
      assert log + Logged(s, c, source, sink) == log;
      CountedFits(log, rolled, limit, c.now, true);
    } else {
      AdmittedFits(log, rolled, limit, c.now, true);
    }
  }

  lemma {:induction false} RunFits(rules: seq<Rule>, calls: seq<Call>, source: string, sink: string, now: Time)
    requires Clocked(calls) && (forall i | 0 <= i < |calls| :: calls[i].now <= now)
    requires BestRule(rules, source, sink).Some?
    ensures Fits(Passed(rules, calls, source, sink), CounterOf(Run(rules, calls), Key(source, sink)),
                 BestRule(rules, source, sink).value.maxPerMinute, now, true)
  {
    if calls != [] {
      var (before, c) := (calls[..|calls| - 1], calls[|calls| - 1]);
      RunFits(rules, before, source, sink, c.now);
      RulesStay(rules, before);
      StepFits(Run(rules, before), c, source, sink, Passed(rules, before, source, sink));
      LaterFits(Passed(rules, calls, source, sink), CounterOf(Run(rules, calls), Key(source, sink)),
                BestRule(rules, source, sink).value.maxPerMinute, c.now, now, true);
    }
  }

  /** In any minute at most twice the rule's limit of a pair's non-critical messages pass, whatever other
      pairs, even those sharing its counter, send. */
  lemma AnyMinuteIsBounded(rules: seq<Rule>, calls: seq<Call>, source: string, sink: string, from: Time)
    requires Clocked(calls) && BestRule(rules, source, sink).Some?
    ensures var limit := BestRule(rules, source, sink).value.maxPerMinute;
      InMinute(Passed(rules, calls, source, sink), from) <= 2 * (if limit > 0 then limit else 0)
  {
    RunFits(rules, calls, source, sink, if calls == [] then 0 else calls[|calls| - 1].now);
    AnyMinute(Passed(rules, calls, source, sink), BestRule(rules, source, sink).value.maxPerMinute, from);
  }

  // ---- nothing is held without cause ----

  /** What one message adds to the log of a key: it is counted there if it passes under a rule. */
  function LoggedUnder(s: State, c: Call, key: string): seq<Admission> {
    if Key(c.source, c.sink) == key && BestRule(s.rules, c.source, c.sink).Some? then Logged(s, c, c.source, c.sink) else []
  }

  /** The messages that passed and were counted under a key, whichever pairs they came from. */
  function CountedUnder(rules: seq<Rule>, calls: seq<Call>, key: string): seq<Admission> {
    if calls == [] then []
    else
      var before := calls[..|calls| - 1];
      CountedUnder(rules, before, key) + LoggedUnder(Run(rules, before), calls[|calls| - 1], key)
  }

  ghost predicate KeyOk(s: State, log: seq<Admission>, key: string, now: Time) {
    Placed(log, CounterOf(s, key), now) && CountsExactly(log, CounterOf(s, key))
  }

  lemma InWindowOfOneMore(log: seq<Admission>, a: Admission, start: Time)
    ensures InWindow(log + [a], start) == InWindow(log, start) + (if a.window == start then 1 else 0)
  {
    assert (log + [a])[..|log|] == log;
  }

  lemma RolledKeyOk(log: seq<Admission>, w: Window, now: Time)
    requires Placed(log, w, now) && CountsExactly(log, w)
    ensures Placed(log, Rolled(w, now, true), now) && CountsExactly(log, Rolled(w, now, true))
  {
    if w.start.Some? && Expired(w.start.value, now, true) {
      NoneInNewWindow(log, now);
    }
  }

  lemma StepUnder(s: State, c: Call, key: string)
    ensures var (rolled, w) := (Rolled(CounterOf(s, key), c.now, true), CounterOf(Step(s, c).0, key));
      if LoggedUnder(s, c, key) == [] then w == CounterOf(s, key) || w == rolled
      else w == rolled.(count := rolled.count + 1) && LoggedUnder(s, c, key) == [Admission(c.now, rolled.start.value)]
  {
  }

  lemma StepKeyOk(s: State, c: Call, key: string, log: seq<Admission>)
    requires KeyOk(s, log, key, c.now)
    ensures KeyOk(Step(s, c).0, log + LoggedUnder(s, c, key), key, c.now)
  {
    var w := Rolled(CounterOf(s, key), c.now, true);
    var logged := LoggedUnder(s, c, key);
    RolledKeyOk(log, CounterOf(s, key), c.now);
    StepUnder(s, c, key);
    if logged == [] {
      assert log + logged == log;
    } else {
      InWindowOfOneMore(log, logged[0], w.start.value);
    }
  }

  lemma {:induction false} RunKeyOk(rules: seq<Rule>, calls: seq<Call>, key: string, now: Time)
    requires Clocked(calls) && (forall i | 0 <= i < |calls| :: calls[i].now <= now)
    ensures KeyOk(Run(rules, calls), CountedUnder(rules, calls, key), key, now)
  {
    if calls != [] {
      var (before, c) := (calls[..|calls| - 1], calls[|calls| - 1]);
      RunKeyOk(rules, before, key, c.now);
      StepKeyOk(Run(rules, before), c, key, CountedUnder(rules, before, key));
    }
  }

  lemma HeldIsFull(s: State, c: Call) returns (rule: Rule)
    requires Step(s, c).1
    ensures !c.critical && BestRule(s.rules, c.source, c.sink) == Some(rule)
    ensures Rolled(CounterOf(s, Key(c.source, c.sink)), c.now, true).count >= rule.maxPerMinute
  {
    rule := BestRule(s.rules, c.source, c.sink).value;
  }

  lemma FullIsEarned(rules: seq<Rule>, calls: seq<Call>, key: string, limit: int, now: Time)
    requires Clocked(calls) && (forall i | 0 <= i < |calls| :: calls[i].now <= now)
    requires Rolled(CounterOf(Run(rules, calls), key), now, true).count >= limit
    ensures InMinute(CountedUnder(rules, calls, key), now - Minute) >= limit
  {
    RunKeyOk(rules, calls, key, now);
    FullWindowIsFullMinute(CountedUnder(rules, calls, key), CounterOf(Run(rules, calls), key), limit, now, true);
  }

  /** A message is held only if it is not critical, a rule applies to it, and within the minute before it as many as
      the rule allows have passed under its key. */
  lemma HeldIsEarned(rules: seq<Rule>, calls: seq<Call>, s: State, c: Call) returns (rule: Rule)
    requires Clocked(calls) && (forall i | 0 <= i < |calls| :: calls[i].now <= c.now)
    requires s == Run(rules, calls) && Step(s, c).1
    ensures !c.critical && BestRule(rules, c.source, c.sink) == Some(rule)
    ensures InMinute(CountedUnder(rules, calls, Key(c.source, c.sink)), c.now - Minute) >= rule.maxPerMinute
  {
    RulesStay(rules, calls);
    rule := HeldIsFull(s, c);
    FullIsEarned(rules, calls, Key(c.source, c.sink), rule.maxPerMinute, c.now);
  }

  /** ShouldFilterWithoutQueue, which only looks. */
  function Peek(s: State, source: string, sink: string, now: Time): bool {
    var rule := BestRule(s.rules, source, sink);
    var w := CounterOf(s, Key(source, sink));
    rule.Some? && w.start.Some? && !Expired(w.start.value, now, true) && w.count >= rule.value.maxPerMinute
  }

  /** The look agrees with what a message sent now would meet, unless the rule admits nothing and the
      counter has run out: then the look says yes and the message is held. */
  lemma PeekForesees(s: State, source: string, sink: string, now: Time)
    ensures Peek(s, source, sink, now) == Step(s, Call(source, sink, false, now)).1 <==>
      (var rule := BestRule(s.rules, source, sink);
       var w := CounterOf(s, Key(source, sink));
       rule.None? || rule.value.maxPerMinute > 0 || (w.start.Some? && !Expired(w.start.value, now, true)))
  {
  }

  // ---- the filter's own fields ----

  class RatelimitFilter {
    const rules: seq<Rule>
    var counters: map<string, Counter>
    var totalFiltered: nat
    var totalPassed: nat

    ghost function Model(): State
      reads this
    {
      State(rules, counters)
    }

    constructor (rules: seq<Rule>)
      ensures Model() == Run(rules, []) && totalFiltered == totalPassed == 0
    {
      this.rules := rules;
      counters := map[];
      totalFiltered, totalPassed := 0, 0;
    }

    method ShouldFilter(source: string, sink: string, critical: bool, now: Time) returns (held: bool)
      modifies this
      ensures (Model(), held) == Step(old(Model()), Call(source, sink, critical, now))
      ensures totalFiltered == old(totalFiltered) + (if held then 1 else 0)
      ensures totalPassed == old(totalPassed) + (if held || critical then 0 else 1)
    {
      if critical {
        return false;
      }
      var rule := FindRule(rules, source, sink);
      if rule.None? {
        totalPassed := totalPassed + 1;
        return false;
      }
      var key := source + "|" + sink;
      if key !in counters || now > counters[key].resetTime {
        counters := counters[key := Counter(0, now + Minute)];
      }
      var c := counters[key];
      assert counters == old(counters)[key := c];
      if c.count >= rule.value.maxPerMinute {
        totalFiltered := totalFiltered + 1;
        return true;
      }
      counters := counters[key := c.(count := c.count + 1)];
      assert counters == old(counters)[key := c.(count := c.count + 1)];
      totalPassed := totalPassed + 1;
      return false;
    }

    method ShouldFilterWithoutQueue(source: string, sink: string, now: Time) returns (held: bool)
      ensures held == Peek(Model(), source, sink, now)
    {
      var rule := FindRule(rules, source, sink);
      if rule.None? {
        return false;
      }
      var key := source + "|" + sink;
      if key !in counters || now > counters[key].resetTime {
        return false;
      }
      return counters[key].count >= rule.value.maxPerMinute;
    }
  }
}
