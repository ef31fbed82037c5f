/**
 A typed source's routing policy: what validation accepts, and which lane a message then takes.
 */
module RoutePolicy {
  import opened Options

  /** A floating point minimum as the configuration can hold it; a NaN passes every range check. */
  datatype Score = NaN | Num(value: real)

  /** The configured words, by what they say; any other text is kept as it is. */
  datatype AIPolicy = Bypass | Required | OtherPolicy(text: string)

  datatype Fallback = ToDirect | ToDigest | ToSilent | OtherFallback(text: string)

  datatype Briefing = PreMarket | Closing | USPreview | NewsAggregate | NoBriefing | OtherBriefing(text: string)

  datatype Band = Band(minScore: Option<Score>, maxPerDay: int, priority: int, target: Briefing)

  datatype Routing = Routing(
    critical: bool,
    keywords: seq<string>,
    aiPolicy: AIPolicy,
    onAIFailure: Fallback,
    direct: Option<Band>,
    digest: Option<Band>,
    fallback: Fallback)

  datatype RoutingError =
    | BadAIPolicy
    | TooManyKeywords
    | EmptyKeyword
    | LongKeyword
    | DirectNeedsAI
    | BadOnAIFailure
    | BadDefault
    | BandsMissing
    | ScoreOutOfRange
    | ScoreMissing
    | NegativeQuota
    | BadPriority
    | TargetNotAllowed
    | BadTarget
    | DefaultWithoutDigest
    | DefaultWithoutDirect
    | FailureWithoutDigest

  // ---- validation ----

  predicate BelowZero(s: Score) {
    s.Num? && s.value < 0.0
  }

  predicate AboveTen(s: Score) {
    s.Num? && s.value > 10.0
  }

  predicate KnownBriefing(target: Briefing) {
    target.PreMarket? || target.Closing? || target.USPreview? || target.NewsAggregate?
  }

  function BandError(band: Option<Band>, isDigest: bool, scoreRequired: bool): Option<RoutingError> {
    match band
    case None => None
    case Some(b) =>
      if b.minScore.Some? && (BelowZero(b.minScore.value) || AboveTen(b.minScore.value)) then Some(ScoreOutOfRange)
      else if scoreRequired && b.minScore.None? then Some(ScoreMissing)
      else if b.maxPerDay < 0 then Some(NegativeQuota)
      else if b.priority < -100 || b.priority > 100 then Some(BadPriority)
      else if !isDigest then (if !b.target.NoBriefing? then Some(TargetNotAllowed) else None)
      else if KnownBriefing(b.target) then None
      else Some(BadTarget)
  }

  function KeywordError(keywords: seq<string>): Option<RoutingError> {
    if keywords == [] then None
    else if keywords[0] == "" then Some(EmptyKeyword)
    else if |keywords[0]| > 128 then Some(LongKeyword)
    else KeywordError(keywords[1..])
  }

  function FirstError(a: Option<RoutingError>, b: Option<RoutingError>): Option<RoutingError> {
    if a.Some? then a else b
  }

  function ErrorIf(bad: bool, e: RoutingError): Option<RoutingError> {
    if bad then Some(e) else None
  }

  function RoutingErrorOf(r: Routing): Option<RoutingError> {
    var required := r.aiPolicy.Required?;
    FirstError(ErrorIf(!r.aiPolicy.Bypass? && !required, BadAIPolicy),
    FirstError(ErrorIf(|r.keywords| > 64, TooManyKeywords),
    FirstError(KeywordError(r.keywords),
    FirstError(ErrorIf(r.direct.Some? && !r.critical && !required && !r.fallback.ToDirect?, DirectNeedsAI),
    FirstError(ErrorIf(!r.onAIFailure.ToDigest? && !r.onAIFailure.ToSilent?, BadOnAIFailure),
    FirstError(ErrorIf(!r.fallback.ToDigest? && !r.fallback.ToSilent? && !r.fallback.ToDirect?, BadDefault),
    FirstError(ErrorIf(r.direct.None? && r.digest.None? && (!r.fallback.ToSilent? || !r.onAIFailure.ToSilent?),
                       BandsMissing),
    FirstError(BandError(r.direct, false, required),
    FirstError(BandError(r.digest, true, required),
    FirstError(ErrorIf(r.fallback.ToDigest? && r.digest.None?, DefaultWithoutDigest),
    FirstError(ErrorIf(r.fallback.ToDirect? && r.direct.None?, DefaultWithoutDirect),
               ErrorIf(r.onAIFailure.ToDigest? && r.digest.None?, FailureWithoutDigest))))))))))))
  }

  predicate Accepted(r: Routing) {
    RoutingErrorOf(r).None?
  }

  /** What a caller may rely on in a band that passed. */
  predicate UsableBand(b: Band, isDigest: bool, scoreRequired: bool) {
    && (b.minScore.Some? && b.minScore.value.Num? ==> 0.0 <= b.minScore.value.value <= 10.0)
    && (scoreRequired ==> b.minScore.Some?)
    && 0 <= b.maxPerDay
    && -100 <= b.priority <= 100
    && (if isDigest then KnownBriefing(b.target) else b.target.NoBriefing?)
  }

  /** The defect an error names is there. */
  predicate HasDefect(b: Band, isDigest: bool, scoreRequired: bool, e: RoutingError) {
    match e
    case ScoreOutOfRange => b.minScore.Some? && b.minScore.value.Num? && !(0.0 <= b.minScore.value.value <= 10.0)
    case ScoreMissing => scoreRequired && b.minScore.None?
    case NegativeQuota => b.maxPerDay < 0
    case BadPriority => !(-100 <= b.priority <= 100)
    case TargetNotAllowed => !isDigest && !b.target.NoBriefing?
    case BadTarget => isDigest && !KnownBriefing(b.target)
    case _ => false
  }

  /** A missing band passes; any other passes exactly when it is usable, and an error names a defect it has. */
  method ValidateRouteBand(band: Option<Band>, isDigest: bool, scoreRequired: bool) returns (err: Option<RoutingError>)
    ensures err == BandError(band, isDigest, scoreRequired)
    ensures err.None? <==> (band.Some? ==> UsableBand(band.value, isDigest, scoreRequired))
    ensures err.Some? ==> band.Some? && HasDefect(band.value, isDigest, scoreRequired, err.value)
  {
    if band.None? {
      return None;
    }
    var b := band.value;
    if b.minScore.Some? && (BelowZero(b.minScore.value) || AboveTen(b.minScore.value)) {
      return Some(ScoreOutOfRange);
    }
    if scoreRequired && b.minScore.None? {
      return Some(ScoreMissing);
    }
    if b.maxPerDay < 0 {
      return Some(NegativeQuota);
    }
    if b.priority < -100 || b.priority > 100 {
      return Some(BadPriority);
    }
    if !isDigest {
      return if !b.target.NoBriefing? then Some(TargetNotAllowed) else None;
    }
    return if KnownBriefing(b.target) then None else Some(BadTarget);
  }

  predicate UsableKeyword(keyword: string) {
    1 <= |keyword| <= 128
  }

  /** What a caller may rely on in a policy that passed: known words, keywords of fit length, usable bands, a band
      for every lane the policy can name, and a reason for direct delivery where there is a direct band. */
  predicate UsablePolicy(r: Routing) {
    var required := r.aiPolicy.Required?;
    && (required || r.aiPolicy.Bypass?)
    && (r.onAIFailure.ToDigest? || r.onAIFailure.ToSilent?)
    && (r.fallback.ToDirect? || r.fallback.ToDigest? || r.fallback.ToSilent?)
    && |r.keywords| <= 64 && (forall k | k in r.keywords :: UsableKeyword(k))
    && (r.direct.Some? ==> UsableBand(r.direct.value, false, required))
    && (r.digest.Some? ==> UsableBand(r.digest.value, true, required))
    && (r.direct.Some? ==> r.critical || required || r.fallback.ToDirect?)
    && (r.fallback.ToDirect? ==> r.direct.Some?)
    && (r.fallback.ToDigest? || r.onAIFailure.ToDigest? ==> r.digest.Some?)
  }

  lemma {:induction false} KeywordsPassIffUsable(keywords: seq<string>)
    ensures KeywordError(keywords).None? <==> forall k | k in keywords :: UsableKeyword(k)
  {
    if keywords != [] {
      KeywordsPassIffUsable(keywords[1..]);
      assert keywords[0] in keywords && UsableKeyword(keywords[0]) == (keywords[0] != "" && |keywords[0]| <= 128);
      assert forall k :: k in keywords <==> k == keywords[0] || k in keywords[1..];
    }
  }

  lemma BandPassesIffUsable(band: Option<Band>, isDigest: bool, scoreRequired: bool)
    ensures BandError(band, isDigest, scoreRequired).None? <==>
      (band.Some? ==> UsableBand(band.value, isDigest, scoreRequired))
  {
  }

  /** The checks in their order leave exactly the usable policies; that some band is there follows. */
  lemma AcceptedIffUsable(r: Routing)
    ensures Accepted(r) <==> UsablePolicy(r)
  {
    KeywordsPassIffUsable(r.keywords);
    BandPassesIffUsable(r.direct, false, r.aiPolicy.Required?);
    BandPassesIffUsable(r.digest, true, r.aiPolicy.Required?);
  }

  /** Passes exactly the usable policies, and otherwise gives the first error in the order of the checks. */
  method ValidateSourceRouting(r: Routing) returns (err: Option<RoutingError>)
    ensures err == RoutingErrorOf(r)
    ensures err.None? <==> UsablePolicy(r)
  {
    AcceptedIffUsable(r);
    if !r.aiPolicy.Bypass? && !r.aiPolicy.Required? {
      return Some(BadAIPolicy);
    }
    if |r.keywords| > 64 {
      return Some(TooManyKeywords);
    }
    for i := 0 to |r.keywords|
      invariant KeywordError(r.keywords) == KeywordError(r.keywords[i..])
    {
      if r.keywords[i] == "" {
        return Some(EmptyKeyword);
      }
      if |r.keywords[i]| > 128 {
        return Some(LongKeyword);
      }
    }
    if r.direct.Some? && !r.critical && !r.aiPolicy.Required? && !r.fallback.ToDirect? {
      return Some(DirectNeedsAI);
    }
    if !r.onAIFailure.ToDigest? && !r.onAIFailure.ToSilent? {
      return Some(BadOnAIFailure);
    }
    if !r.fallback.ToDigest? && !r.fallback.ToSilent? && !r.fallback.ToDirect? {
      return Some(BadDefault);
    }
    if r.direct.None? && r.digest.None? && (!r.fallback.ToSilent? || !r.onAIFailure.ToSilent?) {
      return Some(BandsMissing);
    }
    err := ValidateRouteBand(r.direct, false, r.aiPolicy.Required?);
    if err.Some? {
      return;
    }
    err := ValidateRouteBand(r.digest, true, r.aiPolicy.Required?);
    if err.Some? {
      return;
    }
    if r.fallback.ToDigest? && r.digest.None? {
      return Some(DefaultWithoutDigest);
    }
    if r.fallback.ToDirect? && r.direct.None? {
      return Some(DefaultWithoutDirect);
    }
    if r.onAIFailure.ToDigest? && r.digest.None? {
      return Some(FailureWithoutDigest);
    }
    return None;
  }

  // ---- the decision ----

  datatype Eval =
    | NotRun
    | Success(score: real, blocked: bool)
    | RateLimited
    | ProviderError
    | ParseError
    | Unavailable

  datatype Lane = Direct | Digest | Silent

  datatype Decision = Decision(lane: Lane, band: Option<Band>, eval: Eval, critical: bool)

  predicate BandMatches(band: Option<Band>, score: real) {
    band.Some? && band.value.minScore.Some? && band.value.minScore.value.Num? &&
    score >= band.value.minScore.value.value
  }

  predicate DigestEligible(band: Option<Band>, eval: Eval) {
    eval.Success? && BandMatches(band, eval.score)
  }

  function DefaultRoute(r: Routing, eval: Eval): Decision {
    if r.fallback.ToDirect? then Decision(Direct, r.direct, eval, false)
    else if r.fallback.ToDigest? then Decision(Digest, r.digest, eval, false)
    else Decision(Silent, None, eval, false)
  }

  /** `keyword` tells whether a critical keyword is in the message; `result` is what the evaluator answers if
      it is asked. */
  function Decide(r: Routing, keyword: bool, result: Eval): Decision {
    if r.critical || keyword then Decision(Direct, r.direct, NotRun, true)
    else if !r.aiPolicy.Required? then DefaultRoute(r, NotRun)
    else if !result.Success? then
      if r.onAIFailure.ToDigest? then Decision(Digest, r.digest, result, false)
      else Decision(Silent, None, result, false)
    else if result.blocked then Decision(Silent, None, result, false)
    else if BandMatches(r.direct, result.score) then Decision(Direct, r.direct, result, false)
    else if BandMatches(r.digest, result.score) then Decision(Digest, r.digest, result, false)
    else DefaultRoute(r, result)
  }

  /** Under an accepted policy a digest decision always comes with a band for a known briefing, and a direct
      one with its band unless the message is critical and the source has no direct band. */
  lemma LaneHasItsBand(r: Routing, keyword: bool, result: Eval)
    requires Accepted(r)
    ensures var d := Decide(r, keyword, result);
      && (d.lane.Digest? ==> d.band.Some? && d.band == r.digest && KnownBriefing(d.band.value.target))
      && (d.lane.Direct? ==> d.band == r.direct && (d.band.Some? || d.critical))
      && (d.critical ==> d.lane.Direct? && d.eval.NotRun?)
      && (d.band.Some? ==> d.band.value.maxPerDay >= 0)
  {
  }

  /** A critical message is direct whatever the policy and the evaluator say, and the evaluator is not asked. */
  lemma CriticalIsDirect(r: Routing, keyword: bool, result: Eval)
    requires r.critical || keyword
    ensures Decide(r, keyword, result) == Decision(Direct, r.direct, NotRun, true)
  {
  }

  /** Under a bypass policy an ordinary message goes where the default says, each lane with its own band; the
      evaluator is not asked. */
  lemma BypassFollowsDefault(r: Routing, result: Eval)
    requires Accepted(r) && !r.critical && r.aiPolicy.Bypass?
    ensures var d := Decide(r, false, result);
      && (d.lane.Direct? <==> r.fallback.ToDirect?) && (d.lane.Digest? <==> r.fallback.ToDigest?)
      && d.band == (match d.lane case Direct => r.direct case Digest => r.digest case Silent => None)
      && d.eval.NotRun? && !d.critical
  {
  }

  /** Under a required evaluation that gave a score and did not block, an ordinary message is direct exactly if the
      direct band takes the score, or no band does and the default is direct; digest exactly if the digest band
      takes it and the direct one does not, or no band does and the default is digest. The decision keeps the
      evaluation it rests on, successful or not. */
  lemma ScoreDecides(r: Routing, result: Eval)
    requires Accepted(r) && !r.critical && r.aiPolicy.Required?
    ensures var (d, direct, digest) :=
        (Decide(r, false, result), DigestEligible(r.direct, result), DigestEligible(r.digest, result));
      && (result.Success? && !result.blocked ==>
            && (d.lane.Direct? <==> direct || (!digest && r.fallback.ToDirect?))
            && (d.lane.Digest? <==> !direct && (digest || r.fallback.ToDigest?)))
      && d.band == (match d.lane case Direct => r.direct case Digest => r.digest case Silent => None)
      && d.eval == result && !d.critical
  {
  }

  /** Without a successful evaluation that was required, an ordinary message is never sent directly, and it
      reaches the digest exactly when the policy says so for failures. A blocked one is silent. */
  lemma FailedEvaluationFailsClosed(r: Routing, result: Eval)
    requires Accepted(r) && !r.critical && r.aiPolicy.Required?
    ensures var d := Decide(r, false, result);
      && (!result.Success? ==> !d.lane.Direct? && (d.lane.Digest? <==> r.onAIFailure.ToDigest?))
      && (result.Success? && result.blocked ==> d.lane.Silent?)
      && (d.lane.Direct? ==> result.Success? && !result.blocked)
  {
  }

  /** Scores as the strict parser of the evaluator's answer lets them through. */
  predicate Attainable(score: real) {
    0.0 <= score <= 10.0
  }

  /** The default is direct, and the digest band starts above zero at a score the direct band does not take. */
  predicate GapBelowDirect(r: Routing) {
    && r.fallback.ToDirect?
    && r.digest.Some? && r.digest.value.minScore.Some? && r.digest.value.minScore.value.Num?
    && r.digest.value.minScore.value.value > 0.0
    && !BandMatches(r.direct, r.digest.value.minScore.value.value)
  }

  /** Among the scores an evaluation can have, a better one never takes a message out of the direct lane,
      exactly unless the policy has such a gap. */
  lemma BetterScoreStaysDirect(r: Routing)
    requires Accepted(r) && !r.critical && r.aiPolicy.Required?
    ensures (forall s: real, t: real |
               Attainable(s) && Attainable(t) && s <= t && Decide(r, false, Success(s, false)).lane.Direct? ::
               Decide(r, false, Success(t, false)).lane.Direct?) <==> !GapBelowDirect(r)
  {
    if GapBelowDirect(r) {
      var t := r.digest.value.minScore.value.value;
      assert Attainable(0.0) && Attainable(t);
      assert Decide(r, false, Success(0.0, false)).lane.Direct?;
      assert !Decide(r, false, Success(t, false)).lane.Direct?;
    }
  }

  /** A band that passed validation with a required score takes some attainable score exactly unless its
      minimum is NaN; and then it takes none at all. */
  lemma AcceptedBandTakesSomeScore(b: Band, isDigest: bool)
    requires BandError(Some(b), isDigest, true).None?
    ensures (exists s: real :: Attainable(s) && BandMatches(Some(b), s)) <==> b.minScore != Some(NaN)
    ensures b.minScore == Some(NaN) ==> forall s: real :: !BandMatches(Some(b), s)
  {
    if b.minScore != Some(NaN) {
      assert Attainable(b.minScore.value.value) && BandMatches(Some(b), b.minScore.value.value);
    }
  }

  /** So a lane whose band has a NaN minimum is reached by the default alone, for both bands alike. */
  lemma NaNBandNeverMatches(r: Routing, score: real)
    requires Accepted(r) && !r.critical && r.aiPolicy.Required?
    ensures r.digest.Some? && r.digest.value.minScore == Some(NaN) ==>
      (Decide(r, false, Success(score, false)).lane.Digest? <==>
         r.fallback.ToDigest? && !BandMatches(r.direct, score))
    ensures r.direct.Some? && r.direct.value.minScore == Some(NaN) ==>
      (Decide(r, false, Success(score, false)).lane.Direct? <==>
         r.fallback.ToDirect? && !BandMatches(r.digest, score))
  {
  }

  /** Such a policy: without scores above its NaN minimum nothing is ever sent directly. */
  lemma NaNPolicyIsNeverDirect(score: real)
    ensures var direct := Some(Band(Some(NaN), 5, 0, NoBriefing));
      var r := Routing(false, [], Required, ToSilent, direct, None, ToSilent);
      Accepted(r) && Decide(r, false, Success(score, false)).lane.Silent?
  {
  }

  ghost predicate Reaches(r: Routing, lane: Lane) {
    exists s: real :: Attainable(s) && Decide(r, false, Success(s, false)).lane == lane
  }

  predicate HasMinimum(band: Option<Band>) {
    band.Some? && band.value.minScore.Some? && band.value.minScore.value.Num?
  }

  predicate StartsAt(band: Option<Band>, score: real) {
    HasMinimum(band) && band.value.minScore.value.value == score
  }

  /** For every accepted policy with required evaluation: some score reaches the direct lane exactly if the
      direct band has a number for its minimum or the default is direct and the digest band leaves a score over. */
  lemma DirectIsReachable(r: Routing)
    requires Accepted(r) && !r.critical && r.aiPolicy.Required?
    ensures Reaches(r, Direct) <==>
      HasMinimum(r.direct) || (r.fallback.ToDirect? && !StartsAt(r.digest, 0.0))
  {
    if HasMinimum(r.direct) {
      var s := r.direct.value.minScore.value.value;
      assert Attainable(s) && Decide(r, false, Success(s, false)).lane == Direct;
    } else if r.fallback.ToDirect? && !StartsAt(r.digest, 0.0) {
      assert Attainable(0.0) && Decide(r, false, Success(0.0, false)).lane == Direct;
    }
  }

  /** And some score reaches the digest exactly if the digest band has a number for its minimum and the direct
      band does not take that one too, or the default is digest and the direct band leaves a score over. */
  lemma DigestIsReachable(r: Routing)
    requires Accepted(r) && !r.critical && r.aiPolicy.Required?
    ensures Reaches(r, Digest) <==>
      || (HasMinimum(r.digest) && !BandMatches(r.direct, r.digest.value.minScore.value.value))
      || (r.fallback.ToDigest? && !StartsAt(r.direct, 0.0))
  {
    if HasMinimum(r.digest) && !BandMatches(r.direct, r.digest.value.minScore.value.value) {
      var s := r.digest.value.minScore.value.value;
      assert Attainable(s) && Decide(r, false, Success(s, false)).lane == Digest;
    } else if r.fallback.ToDigest? && !StartsAt(r.direct, 0.0) {
      assert Attainable(0.0) && Decide(r, false, Success(0.0, false)).lane == Digest;
    }
  }

  // ---- the request ----

  /** math.Round: half away from zero. */
  function Round(x: real): int {
    if x >= 0.0 then (x + 0.5).Floor else -((0.5 - x).Floor)
  }

  function RoutedPriority(base: int, eval: Eval): int {
    var p := if eval.Success? then base + Round(eval.score) - 5 else base;
    if p < -100 then -100 else if p > 100 then 100 else p
  }

  datatype Request = Request(lane: Lane, critical: bool, maxPerDay: int, priority: int, briefing: Briefing)

  function RouteRequest(d: Decision, lane: Lane): Request {
    match d.band
    case None => Request(lane, d.critical, 0, 0, NoBriefing)
    case Some(b) => Request(lane, d.critical, b.maxPerDay, RoutedPriority(b.priority, d.eval), b.target)
  }

  /** Rounding gives the nearest integer, and of two the one farther from zero. */
  lemma RoundIsNearest(x: real)
    ensures x >= 0.0 ==> x - 0.5 < Round(x) as real <= x + 0.5
    ensures x < 0.0 ==> x - 0.5 <= Round(x) as real < x + 0.5
  {
  }

  /** Where it is not cut off, the stored priority is the band's, moved by the score's distance from five. */
  lemma PriorityIsShiftedByScore(base: int, eval: Eval)
    ensures eval.Success? && -100 < RoutedPriority(base, eval) < 100 ==>
      RoutedPriority(base, eval) == base - 5 + Round(eval.score)
    ensures !eval.Success? && -100 <= base <= 100 ==> RoutedPriority(base, eval) == base
    ensures eval.Success? && RoutedPriority(base, eval) == 100 ==> base - 5 + Round(eval.score) >= 100
    ensures eval.Success? && RoutedPriority(base, eval) == -100 ==> base - 5 + Round(eval.score) <= -100
  {
  }

  /** The stored priority is in range, moves with the score by at most five and never against it. */
  lemma PriorityFollowsScore(base: int, a: Eval, b: Eval)
    requires -100 <= base <= 100
    requires a.Success? && b.Success? && 0.0 <= a.score <= b.score <= 10.0
    ensures -100 <= RoutedPriority(base, a) <= RoutedPriority(base, b) <= 100
    ensures base - 5 <= RoutedPriority(base, a) <= base + 5
    ensures a.score == 5.0 ==> RoutedPriority(base, a) == RoutedPriority(base, NotRun) == base
  {
  }
}
