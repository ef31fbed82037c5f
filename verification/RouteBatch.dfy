/**
 One batch of messages on its way through a typed source's policy: the calls it makes on the store, in order,
 whatever filters, enhancer and store answer.
 */
module RouteBatch {
  import opened Options
  import opened RoutePolicy

  /** What the store holds about one message when a request for a lane arrives: the lane of the record that
      fences the message, if there is one, and the day's use of the quota. `fails` covers its errors. */
  datatype StoreView = StoreView(fails: bool, existing: Option<Lane>, used: nat)

  /** The store's answer; an admission names the lane of the record, which may be an older one. */
  datatype Admission = Failed | NotAdmitted | Admitted(lane: Lane)

  predicate ValidRequest(request: Request) {
    && request.maxPerDay >= 0 && -100 <= request.priority <= 100
    && (request.lane.Digest? ==> KnownBriefing(request.briefing))
  }

  /** admitRoute: a recorded message keeps its lane, and only ordinary messages meet the quota. */
  function Admit(view: StoreView, request: Request): Admission {
    if view.fails || !ValidRequest(request) then Failed
    else if view.existing.Some? then Admitted(view.existing.value)
    else if !request.critical && request.maxPerDay > 0 && view.used >= request.maxPerDay then NotAdmitted
    else Admitted(request.lane)
  }

  datatype ClaimResult = ClaimFailed | NothingToClaim | Claimed

  /** Everything the surroundings decide for one message. `passed` are the channels its direct delivery is not
      filtered from. */
  datatype Surroundings = Surroundings(
    keyword: bool,
    eval: Eval,
    passed: seq<string>,
    dropped: bool,
    hasRouter: bool,
    direct: StoreView,
    claim: ClaimResult,
    digestFiltered: bool,
    digest: StoreView)

  function Decided(r: Routing, w: Surroundings): Decision {
    Decide(r, w.keyword, w.eval)
  }

  function DirectAnswer(r: Routing, w: Surroundings): Admission {
    Admit(w.direct, RouteRequest(Decided(r, w), Direct))
  }

  function DigestAnswer(d: Decision, w: Surroundings): Admission {
    Admit(w.digest, RouteRequest(d, Digest))
  }

  /** The decision a direct message falls back to when its quota is used up. */
  function Overflow(r: Routing, d: Decision): Decision {
    d.(lane := Digest, band := r.digest)
  }

  /** A claim looks for a direct record only, so it finds nothing where the message is in the digest. */
  function ClaimAnswer(w: Surroundings, recorded: Lane): ClaimResult {
    if w.claim.Claimed? && !recorded.Direct? then NothingToClaim else w.claim
  }

  datatype Call =
    | AdmitDirect(msg: nat, request: Request, channels: seq<string>)
    | ClaimDirect(msg: nat)
    | RunClaim(msg: nat)
    | EnqueueDigest(msg: nat, request: Request)

  /** The calls for one message, the lane its metadata is left with, and whether the batch goes on. */
  datatype Outcome = Outcome(calls: seq<Call>, tag: Option<Lane>, goesOn: bool)

  function AdmitDigest(i: nat, d: Decision, w: Surroundings): Outcome {
    var call := EnqueueDigest(i, RouteRequest(d, Digest));
    match DigestAnswer(d, w)
    case Failed => Outcome([call], Some(Digest), false)
    case Admitted(_) => Outcome([call], Some(Digest), true)
    case NotAdmitted => Outcome([call], Some(Silent), true)
  }

  function RouteDirect(r: Routing, i: nat, d: Decision, w: Surroundings): Outcome {
    if w.passed == [] || w.dropped || !w.hasRouter then Outcome([], None, true)
    else
      var admit := AdmitDirect(i, RouteRequest(d, Direct), w.passed);
      match Admit(w.direct, RouteRequest(d, Direct))
      case Failed => Outcome([admit], None, false)
      case NotAdmitted =>
        if DigestEligible(r.digest, d.eval) then
          var o := AdmitDigest(i, Overflow(r, d), w);
          o.(calls := [admit] + o.calls)
        else Outcome([admit], None, true)
      case Admitted(recorded) =>
        match ClaimAnswer(w, recorded)
        case ClaimFailed => Outcome([admit, ClaimDirect(i)], Some(Direct), false)
        case NothingToClaim => Outcome([admit, ClaimDirect(i)], Some(Direct), true)
        case Claimed => Outcome([admit, ClaimDirect(i), RunClaim(i)], Some(Direct), true)
  }

  function RouteOne(r: Routing, i: nat, w: Surroundings): Outcome {
    var d := Decided(r, w);
    match d.lane
    case Direct => RouteDirect(r, i, d, w)
    case Digest => if w.digestFiltered || w.dropped then Outcome([], Some(Digest), true) else AdmitDigest(i, d, w)
    case Silent => Outcome([], Some(Silent), true)
  }

  function OutcomesUpTo(r: Routing, batch: seq<Surroundings>, n: nat): (o: seq<Outcome>)
    requires n <= |batch|
    ensures |o| == n
  {
    if n == 0 then [] else OutcomesUpTo(r, batch, n - 1) + [RouteOne(r, n - 1, batch[n - 1])]
  }

  function Outcomes(r: Routing, batch: seq<Surroundings>): seq<Outcome> {
    OutcomesUpTo(r, batch, |batch|)
  }

  lemma {:induction false} OutcomeAt(r: Routing, batch: seq<Surroundings>, n: nat, i: nat)
    requires i < n <= |batch|
    ensures OutcomesUpTo(r, batch, n)[i] == RouteOne(r, i, batch[i])
  {
    if i < n - 1 {
      OutcomeAt(r, batch, n - 1, i);
    }
  }

  /** The calls of one message after the other; the first failure ends the batch. */
  function Collect(outcomes: seq<Outcome>): (seq<Call>, bool) {
    if outcomes == [] then ([], true)
    else if !outcomes[0].goesOn then (outcomes[0].calls, false)
    else
      var (calls, ok) := Collect(outcomes[1..]);
      (outcomes[0].calls + calls, ok)
  }

  function RouteAll(r: Routing, batch: seq<Surroundings>): (seq<Call>, bool) {
    Collect(Outcomes(r, batch))
  }

  // ---- what holds of every batch ----

  /** A digest request is made for message `i` of the batch as the policy demands. */
  ghost predicate DigestCallOk(r: Routing, w: Surroundings, request: Request) {
    && request.lane.Digest? && KnownBriefing(request.briefing)
    && r.digest.Some? && request.briefing == r.digest.value.target && request.maxPerDay == r.digest.value.maxPerDay
    && request.priority == RoutedPriority(r.digest.value.priority, Decided(r, w).eval)
    && -100 <= request.priority <= 100
    && !request.critical
    && !w.dropped
    && (Decided(r, w).lane.Digest? || (DirectAnswer(r, w).NotAdmitted? && DigestEligible(r.digest, w.eval)))
  }

  /** Message `i` is sent directly only when it is critical or the policy lets it. */
  ghost predicate DirectCallOk(r: Routing, w: Surroundings, request: Request, channels: seq<string>) {
    && request.lane.Direct? && channels == w.passed && channels != []
    && (request.critical <==> r.critical || w.keyword)
    && (!request.critical ==> r.direct.Some? && request.maxPerDay == r.direct.value.maxPerDay)
    && (r.direct.Some? ==> request.priority == RoutedPriority(r.direct.value.priority, Decided(r, w).eval))
    && (r.direct.None? ==> request.maxPerDay == request.priority == 0)
    && (!request.critical && r.aiPolicy.Required? ==> w.eval.Success? && !w.eval.blocked)
  }

  ghost predicate CallOk(r: Routing, batch: seq<Surroundings>, c: Call) {
    && c.msg < |batch|
    && match c
       case AdmitDirect(i, request, channels) => DirectCallOk(r, batch[i], request, channels)
       case ClaimDirect(i) => DirectAnswer(r, batch[i]).Admitted?
       case RunClaim(i) => DirectAnswer(r, batch[i]) == Admitted(Direct) && batch[i].claim.Claimed?
       case EnqueueDigest(i, request) => DigestCallOk(r, batch[i], request)
  }

  lemma DirectRequestIsOk(r: Routing, w: Surroundings)
    requires Accepted(r) && Decided(r, w).lane.Direct? && DirectIsPrepared(w)
    ensures DirectCallOk(r, w, RouteRequest(Decided(r, w), Direct), w.passed)
  {
    LaneHasItsBand(r, w.keyword, w.eval);
  }

  lemma DigestRequestIsOk(r: Routing, w: Surroundings)
    requires Accepted(r) && !w.dropped
    ensures Decided(r, w).lane.Digest? ==> DigestCallOk(r, w, RouteRequest(Decided(r, w), Digest))
    ensures Decided(r, w).lane.Direct? && DirectAnswer(r, w).NotAdmitted? && DigestEligible(r.digest, Decided(r, w).eval)
      ==> DigestCallOk(r, w, RouteRequest(Overflow(r, Decided(r, w)), Digest))
  {
    LaneHasItsBand(r, w.keyword, w.eval);
  }

  lemma OneMessageIsOk(r: Routing, batch: seq<Surroundings>, i: nat)
    requires Accepted(r) && i < |batch|
    ensures forall c | c in RouteOne(r, i, batch[i]).calls :: c.msg == i && CallOk(r, batch, c)
  {
    var w := batch[i];
    LaneHasItsBand(r, w.keyword, w.eval);
    if Decided(r, w).lane.Direct? && DirectIsPrepared(w) {
      DirectRequestIsOk(r, w);
    }
    if !w.dropped {
      DigestRequestIsOk(r, w);
    }
  }

  lemma {:induction false} CollectedFrom(outcomes: seq<Outcome>, c: Call)
    requires c in Collect(outcomes).0
    ensures exists i :: 0 <= i < |outcomes| && c in outcomes[i].calls
  {
    if c !in outcomes[0].calls {
      CollectedFrom(outcomes[1..], c);
      var i :| 0 <= i < |outcomes[1..]| && c in outcomes[1..][i].calls;
      assert c in outcomes[i + 1].calls;
    }
  }

  /** Whatever the surroundings answer, every call an accepted policy makes is one the policy allows: digest
      requests name a known briefing, an ordinary message is not sent directly on a failed or blocked
      evaluation, and a claim is run only for a message that was admitted. */
  lemma EveryCallIsAllowed(r: Routing, batch: seq<Surroundings>)
    requires Accepted(r)
    ensures forall c | c in RouteAll(r, batch).0 :: CallOk(r, batch, c)
  {
    var outcomes := Outcomes(r, batch);
    forall c | c in Collect(outcomes).0 ensures CallOk(r, batch, c) {
      CollectedFrom(outcomes, c);
      var i :| 0 <= i < |outcomes| && c in outcomes[i].calls;
      OutcomeAt(r, batch, |batch|, i);
      OneMessageIsOk(r, batch, i);
    }
  }

  /** The store's answer to a call for a lane. */
  function AnswerTo(w: Surroundings, c: Call): Option<Admission> {
    match c
    case AdmitDirect(_, request, _) => Some(Admit(w.direct, request))
    case EnqueueDigest(_, request) => Some(Admit(w.digest, request))
    case _ => None
  }

  /** Whether the store let the message into a lane on this call. */
  predicate Enters(batch: seq<Surroundings>, c: Call)
    requires c.msg < |batch|
  {
    AnswerTo(batch[c.msg], c).Some? && AnswerTo(batch[c.msg], c).value.Admitted?
  }

  function Entries(batch: seq<Surroundings>, calls: seq<Call>, i: nat): nat {
    if calls == [] then 0
    else (if calls[0].msg == i < |batch| && Enters(batch, calls[0]) then 1 else 0) + Entries(batch, calls[1..], i)
  }

  lemma {:induction false} EntriesOfSum(batch: seq<Surroundings>, a: seq<Call>, b: seq<Call>, i: nat)
    ensures Entries(batch, a + b, i) == Entries(batch, a, i) + Entries(batch, b, i)
  {
    if a == [] {
      assert a + b == b;
    } else {
      assert (a + b)[1..] == a[1..] + b;
      EntriesOfSum(batch, a[1..], b, i);
    }
  }

  lemma {:induction false} NoEntries(batch: seq<Surroundings>, calls: seq<Call>, i: nat)
    requires forall c | c in calls :: c.msg != i
    ensures Entries(batch, calls, i) == 0
  {
    if calls != [] {
      assert calls[0] in calls;
      NoEntries(batch, calls[1..], i);
    }
  }

  ghost predicate OwnCallsOnce(batch: seq<Surroundings>, o: Outcome, i: nat) {
    (forall c | c in o.calls :: c.msg == i) && Entries(batch, o.calls, i) <= 1
  }

  lemma {:induction false} CollectedOnce(batch: seq<Surroundings>, outcomes: seq<Outcome>, base: nat, i: nat)
    requires forall k: nat | k < |outcomes| :: OwnCallsOnce(batch, outcomes[k], base + k)
    ensures Entries(batch, Collect(outcomes).0, i) <= (if i < base then 0 else 1)
  {
    if outcomes != [] {
      var (o, rest) := (outcomes[0], outcomes[1..]);
      assert OwnCallsOnce(batch, outcomes[0], base + 0);
      forall k: nat | k < |rest| ensures OwnCallsOnce(batch, rest[k], base + 1 + k) {
        assert OwnCallsOnce(batch, outcomes[k + 1], base + (k + 1));
      }
      CollectedOnce(batch, rest, base + 1, i);
      EntriesOfSum(batch, o.calls, Collect(rest).0, i);
      if i != base {
        NoEntries(batch, o.calls, i);
      }
    }
  }

  lemma OneMessageEntersOnce(r: Routing, batch: seq<Surroundings>, i: nat)
    requires Accepted(r) && i < |batch|
    ensures OwnCallsOnce(batch, RouteOne(r, i, batch[i]), i)
  {
    OneMessageIsOk(r, batch, i);
    var calls := RouteOne(r, i, batch[i]).calls;
    if calls != [] {
      EntriesFromFirst(batch, calls, i);
    }
  }

  /** The second call is a claim or, after a refused first one, a digest request; the third runs the claim. */
  lemma EntriesFromFirst(batch: seq<Surroundings>, calls: seq<Call>, i: nat)
    requires calls != [] && forall c | c in calls :: c.msg == i < |batch|
    requires |calls| <= 3 && (|calls| == 3 ==> calls[1].ClaimDirect? && calls[2].RunClaim?)
    requires |calls| == 2 ==> calls[1].ClaimDirect? || (calls[1].EnqueueDigest? && !Enters(batch, calls[0]))
    ensures Entries(batch, calls, i) <= 1
  {
    var rest := calls[1..];
    if rest != [] {
      assert rest[0] == calls[1];
      var last := rest[1..];
      if last != [] {
        assert last == [calls[2]] && last[1..] == [];
        assert Entries(batch, last, i) == 0;
      }
      assert Entries(batch, rest, i) == (if Enters(batch, calls[1]) then 1 else 0);
    }
  }

  /** No message of a batch enters more than one lane, overflow of the direct quota included. */
  lemma EntersOneLane(r: Routing, batch: seq<Surroundings>, i: nat)
    requires Accepted(r)
    ensures Entries(batch, RouteAll(r, batch).0, i) <= 1
  {
    forall k: nat | k < |batch| ensures OwnCallsOnce(batch, Outcomes(r, batch)[k], 0 + k) {
      OutcomeAt(r, batch, |batch|, k);
      OneMessageEntersOnce(r, batch, k);
    }
    CollectedOnce(batch, Outcomes(r, batch), 0, i);
  }

  lemma {:induction false} CollectedUpToFailure(outcomes: seq<Outcome>)
    ensures Collect(outcomes).1 <==> forall j | 0 <= j < |outcomes| :: outcomes[j].goesOn
    ensures forall j | 0 <= j < |outcomes| && (forall k | 0 <= k < j :: outcomes[k].goesOn) ::
      forall c | c in outcomes[j].calls :: c in Collect(outcomes).0
  {
    if outcomes != [] && outcomes[0].goesOn {
      var rest := outcomes[1..];
      CollectedUpToFailure(rest);
      assert forall j | 0 < j < |outcomes| :: outcomes[j] == rest[j - 1];
      forall j | 0 < j < |outcomes| && (forall k | 0 <= k < j :: outcomes[k].goesOn)
        ensures forall c | c in outcomes[j].calls :: c in Collect(outcomes).0
      {
        assert forall k | 0 <= k < j - 1 :: rest[k] == outcomes[k + 1];
        assert outcomes[j] == rest[j - 1];
      }
    }
  }

  /** The batch succeeds exactly when no message meets a failing store, and every message before the first
      failure, and the failing one itself, has all its calls made. */
  lemma FailureEndsBatch(r: Routing, batch: seq<Surroundings>)
    ensures RouteAll(r, batch).1 <==> forall j | 0 <= j < |batch| :: RouteOne(r, j, batch[j]).goesOn
    ensures forall j | 0 <= j < |batch| && (forall k | 0 <= k < j :: RouteOne(r, k, batch[k]).goesOn) ::
      forall c | c in RouteOne(r, j, batch[j]).calls :: c in RouteAll(r, batch).0
  {
    var outcomes := Outcomes(r, batch);
    CollectedUpToFailure(outcomes);
    forall j | 0 <= j < |batch| ensures outcomes[j] == RouteOne(r, j, batch[j]) {
      OutcomeAt(r, batch, |batch|, j);
    }
  }

  /** The quota never refuses a critical message: it is admitted unless the store fails, and no call asks the
      digest to take it. */
  lemma CriticalIsNeverRefused(r: Routing, i: nat, w: Surroundings)
    requires Accepted(r) && (r.critical || w.keyword)
    ensures DirectAnswer(r, w) ==
      if w.direct.fails then Failed else Admitted(if w.direct.existing.Some? then w.direct.existing.value else Direct)
    ensures forall c | c in RouteOne(r, i, w).calls :: !c.EnqueueDigest?
  {
  }

  predicate UsedUp(band: Option<Band>, view: StoreView) {
    && !view.fails && view.existing.None?
    && band.Some? && band.value.maxPerDay > 0 && view.used >= band.value.maxPerDay
  }

  /** The channels, the enhancer and the router let a direct message through to the store. */
  predicate DirectIsPrepared(w: Surroundings) {
    w.passed != [] && !w.dropped && w.hasRouter
  }

  /** The quota of the direct band is used up with no record of the message yet, and a required evaluation gave
      a score that the digest band takes. */
  predicate Overflows(r: Routing, w: Surroundings) {
    && UsedUp(r.direct, w.direct)
    && !(r.critical || w.keyword)
    && r.aiPolicy.Required? && w.eval.Success? && BandMatches(r.digest, w.eval.score)
  }

  /** A message decided for the direct lane is handed to the digest exactly if its delivery was prepared and it
      overflows. */
  lemma OverflowGoesToDigest(r: Routing, i: nat, w: Surroundings)
    requires Accepted(r) && Decided(r, w).lane.Direct?
    ensures (exists c :: c in RouteOne(r, i, w).calls && c.EnqueueDigest?) <==>
      DirectIsPrepared(w) && Overflows(r, w)
  {
    var calls := RouteOne(r, i, w).calls;
    if |calls| == 2 {
      assert calls[1] in calls;
    }
  }

  /** Exactly which calls a message leads to, and that they come in this order: it is asked to be admitted directly
      if it is decided direct and its delivery is prepared; claimed if it was admitted; its claim is run if one was
      handed out; and it is handed to the digest if it is decided so and neither filtered nor dropped, or if it
      overflows. */
  lemma CallsOfMessage(r: Routing, i: nat, w: Surroundings)
    requires Accepted(r)
    ensures var (o, d, answer) := (RouteOne(r, i, w), Decided(r, w), DirectAnswer(r, w));
      var direct := d.lane.Direct? && DirectIsPrepared(w);
      && ((exists c :: c in o.calls && c.AdmitDirect?) <==> direct)
      && (ClaimDirect(i) in o.calls <==> direct && answer.Admitted?)
      && (RunClaim(i) in o.calls <==> direct && answer == Admitted(Direct) && w.claim.Claimed?)
      && ((exists c :: c in o.calls && c.EnqueueDigest?) <==>
            (d.lane.Digest? && !w.digestFiltered && !w.dropped) || (direct && Overflows(r, w)))
      && (forall p, q | 0 <= p < q < |o.calls| :: Stage(o.calls[p]) < Stage(o.calls[q]))
  {
    LaneHasItsBand(r, w.keyword, w.eval);
    var d := Decided(r, w);
    if d.lane.Direct? {
      OverflowGoesToDigest(r, i, w);
      DirectCalls(r, i, w);
    } else if d.lane.Digest? && !w.digestFiltered && !w.dropped {
      assert EnqueueDigest(i, RouteRequest(d, Digest)) in RouteOne(r, i, w).calls;
    }
  }

  function Stage(c: Call): nat {
    match c case AdmitDirect(_, _, _) => 0 case EnqueueDigest(_, _) => 1 case ClaimDirect(_) => 1 case RunClaim(_) => 2
  }

  lemma DirectCalls(r: Routing, i: nat, w: Surroundings)
    requires Accepted(r) && Decided(r, w).lane.Direct?
    ensures var (o, answer) := (RouteOne(r, i, w), DirectAnswer(r, w));
      && ((exists c :: c in o.calls && c.AdmitDirect?) <==> DirectIsPrepared(w))
      && (ClaimDirect(i) in o.calls <==> DirectIsPrepared(w) && answer.Admitted?)
      && (RunClaim(i) in o.calls <==> DirectIsPrepared(w) && answer == Admitted(Direct) && w.claim.Claimed?)
      && (forall p, q | 0 <= p < q < |o.calls| :: Stage(o.calls[p]) < Stage(o.calls[q]))
  {
    LaneHasItsBand(r, w.keyword, w.eval);
    var calls := RouteOne(r, i, w).calls;
    if DirectIsPrepared(w) {
      assert calls[0].AdmitDirect? && calls[0] in calls;
      assert |calls| > 1 ==> calls[1] in calls;
      assert |calls| > 2 ==> calls[2] in calls;
    }
  }

  /** A message lets the batch go on exactly if none of its calls failed: no store error on the way to its lane, and
      no failing claim. */
  lemma GoesOnIff(r: Routing, i: nat, w: Surroundings)
    requires Accepted(r)
    ensures var (o, d) := (RouteOne(r, i, w), Decided(r, w));
      !o.goesOn <==>
        || (d.lane.Direct? && DirectIsPrepared(w) &&
             (|| w.direct.fails
              || (DirectAnswer(r, w).Admitted? && w.claim.ClaimFailed?)
              || (Overflows(r, w) && w.digest.fails)))
        || (d.lane.Digest? && !w.digestFiltered && !w.dropped && w.digest.fails)
  {
    LaneHasItsBand(r, w.keyword, w.eval);
  }

  /** The lane of the record a message has in the store after these calls, if they gave it one. */
  function RecordedLane(w: Surroundings, calls: seq<Call>): Option<Lane> {
    if calls == [] then None
    else
      var answer := AnswerTo(w, calls[|calls| - 1]);
      if answer.Some? && answer.value.Admitted? then Some(answer.value.lane)
      else RecordedLane(w, calls[..|calls| - 1])
  }

  /** The tag is the lane of the message's record, or none and `silent` without a record. */
  predicate TagIsTrue(tag: Option<Lane>, recorded: Option<Lane>) {
    if recorded.Some? then tag == recorded else tag == None || tag == Some(Silent)
  }

  function LaneOf(answer: Option<Admission>): Option<Lane> {
    if answer.Some? && answer.value.Admitted? then Some(answer.value.lane) else None
  }

  lemma RecordedByFirst(w: Surroundings, calls: seq<Call>)
    requires 1 <= |calls| <= 3 && (|calls| == 3 ==> calls[1].ClaimDirect? && calls[2].RunClaim?)
    ensures RecordedLane(w, calls) ==
      if |calls| == 2 && LaneOf(AnswerTo(w, calls[1])).Some? then LaneOf(AnswerTo(w, calls[1]))
      else LaneOf(AnswerTo(w, calls[0]))
  {
    var first := [calls[0]];
    assert first[..0] == [];
    assert RecordedLane(w, first) == LaneOf(AnswerTo(w, calls[0]));
    if |calls| == 1 {
      assert calls == first;
    } else {
      var two := [calls[0], calls[1]];
      assert two[..1] == first;
      assert |calls| == 2 ==> calls == two;
      assert |calls| == 3 ==> calls[..2] == two;
    }
  }

  /** The store has a record of the message in another lane. */
  predicate Elsewhere(view: StoreView, lane: Lane) {
    !view.fails && view.existing.Some? && view.existing.value != lane
  }

  /** The store takes the message into the digest, has it there, or refuses it over the quota. */
  predicate FreeForDigest(view: StoreView) {
    !view.fails && !Elsewhere(view, Digest)
  }

  lemma DigestTag(i: nat, d: Decision, w: Surroundings)
    requires ValidRequest(RouteRequest(d, Digest))
    ensures var o := AdmitDigest(i, d, w);
      && TagIsTrue(o.tag, LaneOf(Some(DigestAnswer(d, w)))) <==> FreeForDigest(w.digest)
  {
  }

  lemma DigestTagTellsLane(r: Routing, i: nat, w: Surroundings)
    requires Accepted(r) && Decided(r, w).lane.Digest?
    ensures var o := RouteOne(r, i, w);
      TagIsTrue(o.tag, RecordedLane(w, o.calls)) <==> !w.digestFiltered && !w.dropped && FreeForDigest(w.digest)
  {
    var d := Decided(r, w);
    LaneHasItsBand(r, w.keyword, w.eval);
    DigestTag(i, d, w);
    RecordedByFirst(w, AdmitDigest(i, d, w).calls);
  }

  lemma OverflowTag(r: Routing, i: nat, d: Decision, w: Surroundings)
    requires Accepted(r) && Overflows(r, w) && DirectIsPrepared(w) && d == Decided(r, w) && d.lane.Direct?
    ensures var o := RouteDirect(r, i, d, w);
      TagIsTrue(o.tag, RecordedLane(w, o.calls)) <==> FreeForDigest(w.digest)
  {
    DigestTag(i, Overflow(r, d), w);
    RecordedByFirst(w, RouteDirect(r, i, d, w).calls);
  }

  lemma DirectTagTellsLane(r: Routing, i: nat, w: Surroundings)
    requires Accepted(r) && Decided(r, w).lane.Direct?
    ensures var o := RouteOne(r, i, w);
      TagIsTrue(o.tag, RecordedLane(w, o.calls)) <==>
        (DirectIsPrepared(w) ==>
           !Elsewhere(w.direct, Direct) && (Overflows(r, w) ==> FreeForDigest(w.digest)))
  {
    var d := Decided(r, w);
    LaneHasItsBand(r, w.keyword, w.eval);
    if DirectIsPrepared(w) {
      if Overflows(r, w) {
        OverflowTag(r, i, d, w);
      } else {
        RecordedByFirst(w, RouteDirect(r, i, d, w).calls);
      }
    }
  }

  /** The lane in the metadata is the lane of the message's record exactly if, of what the surroundings hold
      before the batch: a digest message is neither filtered nor dropped, and the store does not fail and has no
      record of it in another lane; and a prepared direct delivery has no record in another lane, nor meets such a
      store when it overflows into the digest. Otherwise the lane asked for stays in the metadata. */
  lemma TagTellsLane(r: Routing, i: nat, w: Surroundings)
    requires Accepted(r)
    ensures var o := RouteOne(r, i, w);
      TagIsTrue(o.tag, RecordedLane(w, o.calls)) <==>
        match Decided(r, w).lane
        case Silent => true
        case Digest => !w.digestFiltered && !w.dropped && FreeForDigest(w.digest)
        case Direct => DirectIsPrepared(w) ==>
          !Elsewhere(w.direct, Direct) && (Overflows(r, w) ==> FreeForDigest(w.digest))
  {
    match Decided(r, w).lane
    case Direct => DirectTagTellsLane(r, i, w);
    case Digest => DigestTagTellsLane(r, i, w);
    case Silent =>
  }

  /** Such a message: from a critical source, but in the day's digest already. */
  lemma DigestRecordIsTaggedDirect()
    ensures var r := Routing(true, [], Bypass, ToSilent, None, None, ToSilent);
      var w := Surroundings(false, NotRun, ["wechat"], false, true, StoreView(false, Some(Digest), 0), NothingToClaim,
                            false, StoreView(false, Some(Digest), 0));
      var o := RouteOne(r, 0, w);
      Accepted(r) && o.tag == Some(Direct) && RecordedLane(w, o.calls) == Some(Digest)
  {
    var request := Request(Direct, true, 0, 0, NoBriefing);
    var w := Surroundings(false, NotRun, ["wechat"], false, true, StoreView(false, Some(Digest), 0), NothingToClaim,
                          false, StoreView(false, Some(Digest), 0));
    RecordedByFirst(w, [AdmitDirect(0, request, ["wechat"]), ClaimDirect(0)]);
  }

  // ---- the loop in its own form ----

  lemma CollectStep(outcomes: seq<Outcome>, i: nat, done: seq<Call>)
    requires i < |outcomes|
    ensures var (calls, ok) := Collect(outcomes[i..]);
      var o := outcomes[i];
      (done + calls, ok) ==
        if o.goesOn then ((done + o.calls) + Collect(outcomes[i + 1..]).0, Collect(outcomes[i + 1..]).1)
        else (done + o.calls, false)
  {
    assert outcomes[i..][0] == outcomes[i] && outcomes[i..][1..] == outcomes[i + 1..];
    assert done + (outcomes[i].calls + Collect(outcomes[i + 1..]).0) ==
      (done + outcomes[i].calls) + Collect(outcomes[i + 1..]).0;
  }

  class Engine {
    var log: seq<Call>

    constructor ()
      ensures log == []
    {
      log := [];
    }

    method AdmitTypedDigest(i: nat, d: Decision, w: Surroundings) returns (ok: bool, tag: Option<Lane>)
      modifies this
      ensures var o := AdmitDigest(i, d, w); log == old(log) + o.calls && ok == o.goesOn && tag == o.tag
    {
      log := log + [EnqueueDigest(i, RouteRequest(d, Digest))];
      tag := Some(Digest);
      var answer := Admit(w.digest, RouteRequest(d, Digest));
      if answer.Failed? {
        return false, tag;
      }
      if !answer.Admitted? {
        tag := Some(Silent);
      }
      return true, tag;
    }

    method RouteTypedMessages(r: Routing, batch: seq<Surroundings>) returns (ok: bool, tags: seq<Option<Lane>>)
      modifies this
      ensures log == old(log) + RouteAll(r, batch).0 && ok == RouteAll(r, batch).1
      ensures |tags| <= |batch| && (ok ==> |tags| == |batch|)
      ensures forall i | 0 <= i < |tags| :: tags[i] == Outcomes(r, batch)[i].tag
    {
      tags := [];
      ghost var outcomes := Outcomes(r, batch);
      ghost var done: seq<Call> := [];
      assert outcomes[0..] == outcomes && done + Collect(outcomes).0 == Collect(outcomes).0;
      for i := 0 to |batch|
        invariant |tags| == i
        invariant forall k | 0 <= k < i :: tags[k] == outcomes[k].tag
        invariant log == old(log) + done
        invariant Collect(outcomes) == (done + Collect(outcomes[i..]).0, Collect(outcomes[i..]).1)
      {
        CollectStep(outcomes, i, done);
        done := done + outcomes[i].calls;
        var goesOn, tag := RouteNext(r, batch, i);
        tags := tags + [tag];
        if !goesOn {
          return false, tags;
        }
      }
      return true, tags;
    }

    method RouteNext(r: Routing, batch: seq<Surroundings>, i: nat) returns (goesOn: bool, tag: Option<Lane>)
      requires i < |batch|
      modifies this
      ensures var o := Outcomes(r, batch)[i]; log == old(log) + o.calls && goesOn == o.goesOn && tag == o.tag
    {
      OutcomeAt(r, batch, |batch|, i);
      goesOn, tag := RouteMessage(r, i, batch[i]);
    }

    /** The body of the loop. */
    method RouteMessage(r: Routing, i: nat, w: Surroundings) returns (goesOn: bool, tag: Option<Lane>)
      modifies this
      ensures var o := RouteOne(r, i, w); log == old(log) + o.calls && goesOn == o.goesOn && tag == o.tag
    {
      var decision := Decided(r, w);
      tag := None;
      if decision.lane.Direct? {
        if w.passed == [] || w.dropped || !w.hasRouter {
          return true, tag;
        }
        log := log + [AdmitDirect(i, RouteRequest(decision, Direct), w.passed)];
        var answer := Admit(w.direct, RouteRequest(decision, Direct));
        if answer.Failed? {
          return false, tag;
        }
        if !answer.Admitted? {
          if DigestEligible(r.digest, decision.eval) {
            decision := decision.(lane := Digest, band := r.digest);
            goesOn, tag := AdmitTypedDigest(i, decision, w);
            return;
          }
          return true, tag;
        }
        tag := Some(Direct);
        log := log + [ClaimDirect(i)];
        var claim := ClaimAnswer(w, answer.lane);
        if claim.ClaimFailed? {
          return false, tag;
        }
        if claim.Claimed? {
          log := log + [RunClaim(i)];
        }
        return true, tag;
      }
      tag := Some(decision.lane);
      if decision.lane.Digest? {
        if w.digestFiltered || w.dropped {
          return true, tag;
        }
        goesOn, tag := AdmitTypedDigest(i, decision, w);
        return;
      }
      return true, tag;
    }
  }
}
