/**
 Direct delivery: the workers that deliver claimed messages channel by channel, the crash and recovery
 of the process between any two of their steps, and the shutdown drain of the engine that runs them.
 */
module DirectDelivery {
  import opened Options
  import opened DirectStore

  type WorkerId = nat
  type Key = nat  // a source and message identity: only equality matters

  /** One claim handed to runDirectClaim; `deliverable` is false for a nil router or a nil message. */
  datatype DirectClaim = DirectClaim(key: Key, token: Token, deliverable: bool, channels: seq<Channel>)

  datatype Call = CompleteCall(channel: Channel) | FailCall(channel: Channel, permanent: bool) | ReleaseCall

  /** An attempt is a dispatch, or the look that finds the channel not configured. */
  datatype Event =
    | Dispatched(worker: WorkerId, key: Key, channel: Channel, ok: bool)
    | Unavailable(worker: WorkerId, key: Key, channel: Channel)
    | StoreCall(worker: WorkerId, key: Key, call: Call)

  datatype Phase =
    | Entering(claim: DirectClaim)
    | Fenced(claim: DirectClaim)
    | Delivering(claim: DirectClaim, next: nat)
    | Sent(claim: DirectClaim, next: nat)
    | Unsent(claim: DirectClaim, next: nat, permanent: bool)
    | Leaving(claim: DirectClaim)
    | Done(claim: DirectClaim, fenced: bool)

  datatype Lifecycle = Fresh | Running | Fencing | Stopped

  datatype State = State(
    records: map<Key, Record>,
    workers: map<WorkerId, Phase>,
    nextWorker: WorkerId,
    nextToken: Token,
    now: nat,
    lifecycle: Lifecycle,
    initialized: bool,
    accepting: bool,
    inFlight: nat,
    log: seq<Event>)
  {
    function Goto(w: WorkerId, phase: Phase): State {
      this.(workers := workers[w := phase])
    }

    function Ask(e: Event, record: Record): State {
      this.(records := records[e.key := record], log := log + [e])
    }
  }

  /** `stored` is false for a store call that fails or times out and changes nothing. */
  datatype Action =
    | Tick(to: nat)
    | Register(key: Key, channels: seq<Channel>)
    | ClaimDirect(key: Key, lease: nat, deliverable: bool)
    | Enter(worker: WorkerId)
    | ReleaseFenced(worker: WorkerId, stored: bool)
    | Dispatch(worker: WorkerId, known: bool, ok: bool)
    | Checkpoint(worker: WorkerId, stored: bool)
    | FinishClaim(worker: WorkerId, stored: bool)
    | Leave(worker: WorkerId)
    | StartEngine
    | LowerFence
    | ReturnFromStop
    | Crash

  /** The fence of runDirectClaim. */
  predicate Fences(s: State) {
    s.initialized && !s.accepting
  }

  predicate Enabled(s: State, action: Action) {
    match action
    case Tick(to) => s.now <= to
    case Register(key, channels) => key !in s.records
    // Recovery and the routing of fetched messages both start with the engine.
    case ClaimDirect(key, lease, deliverable) =>
      s.initialized && key in s.records && Claim(s.records[key], s.nextToken, s.now, lease).1.Some?
    case Enter(w) => w in s.workers && s.workers[w].Entering?
    case ReleaseFenced(w, _) => w in s.workers && s.workers[w].Fenced? && s.workers[w].claim.key in s.records
    case Dispatch(w, known, ok) =>
      w in s.workers && s.workers[w].Delivering? && s.workers[w].claim.deliverable &&
      s.workers[w].next < |s.workers[w].claim.channels|
    case Checkpoint(w, _) =>
      w in s.workers && (s.workers[w].Sent? || s.workers[w].Unsent?) && s.workers[w].claim.key in s.records &&
      s.workers[w].next < |s.workers[w].claim.channels|
    case FinishClaim(w, _) =>
      w in s.workers && s.workers[w].Delivering? && s.workers[w].claim.key in s.records &&
      (!s.workers[w].claim.deliverable || s.workers[w].next == |s.workers[w].claim.channels|)
    case Leave(w) => w in s.workers && s.workers[w].Leaving? && s.inFlight > 0
    case StartEngine => s.lifecycle == Fresh || s.lifecycle == Stopped
    case LowerFence => s.lifecycle != Fencing
    // directWG.Wait: both branches of Stop wait for the group before going on.
    case ReturnFromStop => s.lifecycle == Fencing && s.inFlight == 0
    case Crash => true
  }

  /** What a checkpoint asks the store, and the record it leaves. */
  function AskedToCheckpoint(s: State, w: WorkerId, stored: bool): (Event, Record)
    requires Enabled(s, Checkpoint(w, stored))
  {
    var p := s.workers[w];
    var channel, record := p.claim.channels[p.next], s.records[p.claim.key];
    var call := if p.Sent? then CompleteCall(channel) else FailCall(channel, p.permanent);
    var after := if p.Sent? then Complete(record, p.claim.token, channel).0
                 else Fail(record, p.claim.token, channel, p.permanent, s.now).0;
    (StoreCall(w, p.claim.key, call), if stored then after else record)
  }

  /** What giving up a claim asks the store, and the record it leaves. */
  function AskedToRelease(s: State, w: WorkerId, stored: bool): (Event, Record)
    requires w in s.workers && s.workers[w].claim.key in s.records
  {
    var claim := s.workers[w].claim;
    var record := s.records[claim.key];
    (StoreCall(w, claim.key, ReleaseCall), if stored then Release(record, claim.token) else record)
  }

  function Apply(s: State, action: Action): State
    requires Enabled(s, action)
  {
    match action
    case Tick(to) => s.(now := to)
    case Register(key, channels) => s.(records := s.records[key := NewRecord(channels)])
    case ClaimDirect(key, lease, deliverable) =>
      var (record, channels) := Claim(s.records[key], s.nextToken, s.now, lease);
      s.(records := s.records[key := record], nextToken := s.nextToken + 1, nextWorker := s.nextWorker + 1)
      .Goto(s.nextWorker, Entering(DirectClaim(key, s.nextToken, deliverable, channels.value)))
    case Enter(w) =>
      var claim := s.workers[w].claim;
      if Fences(s) then s.Goto(w, Fenced(claim)) else s.(inFlight := s.inFlight + 1).Goto(w, Delivering(claim, 0))
    case ReleaseFenced(w, stored) =>
      var (e, record) := AskedToRelease(s, w, stored);
      s.Ask(e, record).Goto(w, Done(s.workers[w].claim, true))
    case Dispatch(w, known, ok) =>
      var p := s.workers[w];
      var channel := p.claim.channels[p.next];
      if !known
      then s.(log := s.log + [Unavailable(w, p.claim.key, channel)]).Goto(w, Unsent(p.claim, p.next, true))
      else s.(log := s.log + [Dispatched(w, p.claim.key, channel, ok)])
           .Goto(w, if ok then Sent(p.claim, p.next) else Unsent(p.claim, p.next, false))
    case Checkpoint(w, stored) =>
      var (e, record) := AskedToCheckpoint(s, w, stored);
      s.Ask(e, record).Goto(w, Delivering(s.workers[w].claim, s.workers[w].next + 1))
    case FinishClaim(w, stored) =>
      var (e, record) := AskedToRelease(s, w, stored);
      s.Ask(e, record).Goto(w, Leaving(s.workers[w].claim))
    case Leave(w) => s.(inFlight := s.inFlight - 1).Goto(w, Done(s.workers[w].claim, false))
    case StartEngine => s.(lifecycle := Running, initialized := true, accepting := true)
    case LowerFence => s.(lifecycle := Fencing, accepting := false)
    case ReturnFromStop => s.(lifecycle := Stopped)
    // A crash forgets everything but the store.
    case Crash => s.(workers := map[], lifecycle := Fresh, initialized := false, accepting := false, inFlight := 0)
  }

  ghost predicate Init(s: State) {
    s.records == map[] && s.workers == map[] && s.nextWorker == 0 && s.lifecycle == Fresh &&
    !s.initialized && !s.accepting && s.inFlight == 0 && s.log == []
  }

  ghost predicate IsRun(states: seq<State>, actions: seq<Action>) {
    && |states| == |actions| + 1
    && Init(states[0])
    && (forall i {:trigger actions[i]} | 0 <= i < |actions| ::
          Enabled(states[i], actions[i]) && states[i + 1] == Apply(states[i], actions[i]))
  }

  // ---- what one worker asks of the store ----

  function CallsOf(log: seq<Event>, w: WorkerId): seq<Call> {
    if log == [] then []
    else
      var last := log[|log| - 1];
      CallsOf(log[..|log| - 1], w) + if last.StoreCall? && last.worker == w then [last.call] else []
  }

  /** The attempts of one worker, in order. */
  function AttemptsOf(log: seq<Event>, w: WorkerId): seq<Event> {
    if log == [] then []
    else
      var last := log[|log| - 1];
      AttemptsOf(log[..|log| - 1], w) + if !last.StoreCall? && last.worker == w then [last] else []
  }

  /** The call tells the store how the attempt on the channel went. */
  predicate Reports(call: Call, attempt: Event, w: WorkerId, key: Key, channel: Channel) {
    && (attempt == Dispatched(w, key, channel, true) || attempt == Dispatched(w, key, channel, false)
        || attempt == Unavailable(w, key, channel))
    && (call == CompleteCall(channel) <==> attempt == Dispatched(w, key, channel, true))
    && (call == FailCall(channel, true) <==> attempt == Unavailable(w, key, channel))
    && (call == FailCall(channel, false) <==> attempt == Dispatched(w, key, channel, false))
  }

  /** The first n channels of the claim were attempted and reported once each, in order, and nothing else was
      called. */
  ghost predicate ReportedUpTo(calls: seq<Call>, attempts: seq<Event>, w: WorkerId, claim: DirectClaim, n: nat) {
    && n <= |claim.channels| && |calls| == n <= |attempts|
    && forall i | 0 <= i < n :: Reports(calls[i], attempts[i], w, claim.key, claim.channels[i])
  }

  /** The calls of a finished worker: one report per channel of a delivered claim, then one release. */
  ghost predicate CompleteCalls(calls: seq<Call>, attempts: seq<Event>, w: WorkerId, claim: DirectClaim, delivered: bool) {
    && |calls| >= 1
    && calls[|calls| - 1] == ReleaseCall
    && |attempts| == |calls| - 1
    && ReportedUpTo(calls[..|calls| - 1], attempts, w, claim, if delivered then |claim.channels| else 0)
  }

  /** The next channel was attempted with this outcome, and not yet reported. */
  ghost predicate Attempted(
      calls: seq<Call>, attempts: seq<Event>, w: WorkerId, claim: DirectClaim, n: nat, attempt: Event)
  {
    && claim.deliverable && n < |claim.channels|
    && ReportedUpTo(calls, attempts, w, claim, n) && |attempts| == n + 1 && attempts[n] == attempt
  }

  /** What a worker in this phase has called and attempted. */
  ghost predicate TraceOk(calls: seq<Call>, attempts: seq<Event>, w: WorkerId, p: Phase) {
    match p
    case Entering(_) => calls == [] && attempts == []
    case Fenced(_) => calls == [] && attempts == []
    case Delivering(c, n) => ReportedUpTo(calls, attempts, w, c, n) && |attempts| == n && (!c.deliverable ==> n == 0)
    case Sent(c, n) => n < |c.channels| && Attempted(calls, attempts, w, c, n, Dispatched(w, c.key, c.channels[n], true))
    case Unsent(c, n, permanent) => n < |c.channels| && Attempted(calls, attempts, w, c, n,
      if permanent then Unavailable(w, c.key, c.channels[n]) else Dispatched(w, c.key, c.channels[n], false))
    case Leaving(c) => CompleteCalls(calls, attempts, w, c, c.deliverable)
    case Done(c, fenced) => CompleteCalls(calls, attempts, w, c, !fenced && c.deliverable)
  }

  ghost predicate PhaseOk(s: State, w: WorkerId, p: Phase) {
    && p.claim.key in s.records
    && (forall c | c in p.claim.channels :: c in s.records[p.claim.key].channels)
    && TraceOk(CallsOf(s.log, w), AttemptsOf(s.log, w), w, p)
    && (p.Sent? ==> SentBy(s.log, w, p.claim.key, p.claim.channels[p.next]))
  }

  /** No record is lost, and its channels are fixed. */
  ghost predicate KeepsRecords(s: State, s': State) {
    forall k | k in s.records :: k in s'.records && s'.records[k].channels == s.records[k].channels
  }

  /** Some worker's dispatch of the message to the channel succeeded. */
  predicate SentTo(log: seq<Event>, key: Key, channel: Channel) {
    log != [] &&
    (var last := log[|log| - 1];
     (last.Dispatched? && last.key == key && last.channel == channel && last.ok) ||
     SentTo(log[..|log| - 1], key, channel))
  }

  /** Worker w itself sent the message to the channel. */
  predicate SentBy(log: seq<Event>, w: WorkerId, key: Key, channel: Channel) {
    log != [] &&
    (log[|log| - 1] == Dispatched(w, key, channel, true) || SentBy(log[..|log| - 1], w, key, channel))
  }

  /** Every logged completion comes after a successful dispatch by the same worker to the same channel. */
  predicate CompletionsFollowSends(log: seq<Event>) {
    log == [] ||
    (var front, last := log[..|log| - 1], log[|log| - 1];
     CompletionsFollowSends(front) &&
     (last.StoreCall? && last.call.CompleteCall? ==> SentBy(front, last.worker, last.key, last.call.channel)))
  }

  ghost predicate Accounted(s: State) {
    && CompletionsFollowSends(s.log)
    && (forall k: Key, c: Channel | k in s.records && c in s.records[k].delivered :: SentTo(s.log, k, c))
  }

  predicate Counted(p: Phase) {
    p.Delivering? || p.Sent? || p.Unsent? || p.Leaving?
  }

  function InFlightOf(workers: map<WorkerId, Phase>): set<WorkerId> {
    set w | w in workers && Counted(workers[w])
  }

  ghost predicate RecordsOk(s: State) {
    forall k | k in s.records :: s.records[k].Valid()
  }

  ghost predicate WorkersOk(s: State) {
    && (forall w | w in s.workers :: w < s.nextWorker && PhaseOk(s, w, s.workers[w]))
    && (forall i | 0 <= i < |s.log| :: s.log[i].worker < s.nextWorker)
  }

  ghost predicate EngineOk(s: State) {
    && s.inFlight == |InFlightOf(s.workers)|
    && (s.lifecycle == Running ==> s.initialized && s.accepting)
    && (s.lifecycle.Fencing? || s.lifecycle.Stopped? ==> !s.accepting)
    && (s.lifecycle == Stopped ==> s.inFlight == 0)
    && (s.workers != map[] ==> s.initialized)
    && (s.lifecycle == Fresh ==> !s.initialized)
  }

  ghost predicate BooksOk(s: State) {
    RecordsOk(s) && EngineOk(s) && Accounted(s)
  }

  ghost predicate Inv(s: State) {
    WorkersOk(s) && BooksOk(s)
  }

  // ---- the invariant holds in every run ----

  lemma CallsAppend(log: seq<Event>, e: Event, w: WorkerId)
    ensures CallsOf(log + [e], w) == CallsOf(log, w) + if e.StoreCall? && e.worker == w then [e.call] else []
    ensures AttemptsOf(log + [e], w) == AttemptsOf(log, w) + if !e.StoreCall? && e.worker == w then [e] else []
  {
    assert (log + [e])[..|log|] == log;
  }

  lemma SentAppend(log: seq<Event>, e: Event, w: WorkerId, k: Key, c: Channel)
    ensures SentBy(log + [e], w, k, c) <==> SentBy(log, w, k, c) || e == Dispatched(w, k, c, true)
    ensures SentTo(log + [e], k, c) <==> SentTo(log, k, c) || (e.Dispatched? && e.key == k && e.channel == c && e.ok)
  {
    assert (log + [e])[..|log|] == log;
  }

  lemma CompletionsAppend(log: seq<Event>, e: Event)
    requires CompletionsFollowSends(log)
    requires e.StoreCall? && e.call.CompleteCall? ==> SentBy(log, e.worker, e.key, e.call.channel)
    ensures CompletionsFollowSends(log + [e])
  {
    assert (log + [e])[..|log|] == log;
  }

  lemma {:induction false} SentByImpliesSentTo(log: seq<Event>, w: WorkerId, key: Key, channel: Channel)
    requires SentBy(log, w, key, channel)
    ensures SentTo(log, key, channel)
  {
    if log[|log| - 1] != Dispatched(w, key, channel, true) {
      SentByImpliesSentTo(log[..|log| - 1], w, key, channel);
    }
  }

  lemma {:induction false} NoCallsYet(log: seq<Event>, w: WorkerId)
    requires forall i | 0 <= i < |log| :: log[i].worker != w
    ensures CallsOf(log, w) == [] && AttemptsOf(log, w) == []
  {
    if log != [] {
      NoCallsYet(log[..|log| - 1], w);
    }
  }

  /** Replacing one worker's phase moves the in-flight count by what that worker contributes. */
  lemma InFlightAfter(workers: map<WorkerId, Phase>, w: WorkerId, p: Phase)
    ensures |InFlightOf(workers[w := p])| + (if w in workers && Counted(workers[w]) then 1 else 0) ==
      |InFlightOf(workers)| + (if Counted(p) then 1 else 0)
  {
    var before, after := InFlightOf(workers), InFlightOf(workers[w := p]);
    assert after - {w} == before - {w};
    SizeWithout(before, w);
    SizeWithout(after, w);
  }

  lemma SizeWithout(ws: set<WorkerId>, w: WorkerId)
    ensures |ws| == |ws - {w}| + (if w in ws then 1 else 0)
  {
    if w !in ws {
      assert ws - {w} == ws;
    }
  }

  /** Worker w takes a step: its phase becomes p, at most one event of its own is logged. */
  ghost predicate Steps(s: State, s': State, w: WorkerId, p: Phase) {
    && s'.workers == s.workers[w := p]
    && s.nextWorker <= s'.nextWorker
    && w < s'.nextWorker
    && KeepsRecords(s, s')
    && (s'.log == s.log || exists e :: s'.log == s.log + [e] && e.worker == w)
  }

  lemma OtherWorkerKept(s: State, s': State, v: WorkerId, e: Event)
    requires v in s.workers && PhaseOk(s, v, s.workers[v])
    requires s'.log == s.log + [e] && e.worker != v && KeepsRecords(s, s')
    ensures PhaseOk(s', v, s.workers[v])
  {
    var p := s.workers[v];
    CallsAppend(s.log, e, v);
    assert CallsOf(s'.log, v) == CallsOf(s.log, v) && AttemptsOf(s'.log, v) == AttemptsOf(s.log, v);
    if p.Sent? {
      SentAppend(s.log, e, v, p.claim.key, p.claim.channels[p.next]);
    }
  }

  lemma PhaseKept(s: State, s': State, v: WorkerId, p: Phase)
    requires PhaseOk(s, v, p) && s'.log == s.log && KeepsRecords(s, s')
    ensures PhaseOk(s', v, p)
  {
  }

  lemma WorkersKept(s: State, s': State, w: WorkerId, p: Phase)
    requires WorkersOk(s) && Steps(s, s', w, p) && PhaseOk(s', w, p)
    ensures WorkersOk(s')
  {
    forall v | v in s'.workers ensures v < s'.nextWorker && PhaseOk(s', v, s'.workers[v]) {
      if v != w {
        assert PhaseOk(s, v, s.workers[v]);
        if s'.log == s.log {
          PhaseKept(s, s', v, s.workers[v]);
        } else {
          var e :| s'.log == s.log + [e] && e.worker == w;
          OtherWorkerKept(s, s', v, e);
        }
      }
    }
  }

  /** Logging an event keeps past accounts; a completion must be preceded by its dispatch. */
  lemma AccountsKept(s: State, s': State, e: Event)
    requires Accounted(s) && s'.log == s.log + [e]
    requires e.StoreCall? && e.call.CompleteCall? ==> SentBy(s.log, e.worker, e.key, e.call.channel)
    requires s'.records.Keys == s.records.Keys
    requires forall k: Key, c: Channel | k in s.records && c in s'.records[k].delivered ::
      c in s.records[k].delivered || (e.StoreCall? && e.key == k && e.call.CompleteCall? && e.call.channel == c)
    ensures Accounted(s')
  {
    CompletionsAppend(s.log, e);
    forall k: Key, c: Channel | k in s'.records && c in s'.records[k].delivered
      ensures SentTo(s'.log, k, c)
    {
      assert k in s.records;
      SentAppend(s.log, e, 0, k, c);
      if c !in s.records[k].delivered {
        SentByImpliesSentTo(s.log, e.worker, k, c);
      }
    }
  }

  /** Worker w called the store about its claim: the record became r, the call e was logged. */
  ghost predicate Asked(s: State, s': State, w: WorkerId, p: Phase, r: Record, e: Event) {
    && w in s.workers && s.workers[w].claim.key in s.records
    && e.StoreCall? && e.worker == w && e.key == s.workers[w].claim.key
    && s' == s.(workers := s.workers[w := p], records := s.records[e.key := r], log := s.log + [e])
  }

  lemma AskKeepsEngine(s: State, s': State, w: WorkerId, p: Phase, r: Record, e: Event)
    requires RecordsOk(s) && EngineOk(s) && Asked(s, s', w, p, r, e)
    requires Counted(p) == Counted(s.workers[w]) && r.Valid()
    ensures RecordsOk(s') && EngineOk(s')
  {
    InFlightAfter(s.workers, w, p);
  }

  lemma AskKeepsBooks(s: State, s': State, w: WorkerId, p: Phase, r: Record, e: Event)
    requires BooksOk(s) && Asked(s, s', w, p, r, e)
    requires Counted(p) == Counted(s.workers[w]) && r.Valid()
    requires e.call.CompleteCall? ==> SentBy(s.log, w, e.key, e.call.channel)
    requires r.delivered <= s.records[e.key].delivered + (if e.call.CompleteCall? then {e.call.channel} else {})
    ensures BooksOk(s')
  {
    AskKeepsEngine(s, s', w, p, r, e);
    AccountsKept(s, s', e);
  }

  lemma AskKeepsWorkers(s: State, s': State, w: WorkerId, p: Phase, r: Record, e: Event)
    requires WorkersOk(s) && Asked(s, s', w, p, r, e) && PhaseOk(s', w, p)
    requires r.channels == s.records[e.key].channels
    ensures WorkersOk(s')
  {
    assert s'.log == s.log + [e];
    WorkersKept(s, s', w, p);
  }

  /** The attempt a worker in this phase has to report. */
  function LastAttempt(w: WorkerId, p: Phase): Event
    requires (p.Sent? || p.Unsent?) && p.next < |p.claim.channels|
  {
    var (key, channel) := (p.claim.key, p.claim.channels[p.next]);
    if p.Sent? then Dispatched(w, key, channel, true)
    else if p.permanent then Unavailable(w, key, channel)
    else Dispatched(w, key, channel, false)
  }

  lemma OneMoreReport(calls: seq<Call>, attempts: seq<Event>, w: WorkerId, p: Phase, call: Call)
    requires (p.Sent? || p.Unsent?) && TraceOk(calls, attempts, w, p)
    requires Reports(call, LastAttempt(w, p), w, p.claim.key, p.claim.channels[p.next])
    ensures TraceOk(calls + [call], attempts, w, Delivering(p.claim, p.next + 1))
  {
  }

  lemma CheckpointPhase(s: State, s': State, w: WorkerId, e: Event)
    requires w in s.workers && (s.workers[w].Sent? || s.workers[w].Unsent?)
    requires PhaseOk(s, w, s.workers[w])
    requires e.StoreCall? && e.worker == w && s'.log == s.log + [e] && KeepsRecords(s, s')
    requires var p := s.workers[w]; Reports(e.call, LastAttempt(w, p), w, p.claim.key, p.claim.channels[p.next])
    ensures PhaseOk(s', w, Delivering(s.workers[w].claim, s.workers[w].next + 1))
  {
    CallsAppend(s.log, e, w);
    OneMoreReport(CallsOf(s.log, w), AttemptsOf(s.log, w), w, s.workers[w], e.call);
  }

  /** A checkpoint reports the worker's last attempt. */
  lemma CheckpointAsks(s: State, w: WorkerId, stored: bool)
    requires Enabled(s, Checkpoint(w, stored))
    ensures var ((e, r), p) := (AskedToCheckpoint(s, w, stored), s.workers[w]);
      && Asked(s, Apply(s, Checkpoint(w, stored)), w, Delivering(p.claim, p.next + 1), r, e)
      && Reports(e.call, LastAttempt(w, p), w, p.claim.key, p.claim.channels[p.next])
      && r.channels == s.records[e.key].channels
  {
  }

  /** The record a checkpoint leaves is sound and has at most the reported channel added. */
  lemma CheckpointRecord(s: State, w: WorkerId, stored: bool)
    requires RecordsOk(s) && Enabled(s, Checkpoint(w, stored))
    ensures var (e, r) := AskedToCheckpoint(s, w, stored);
      && r.Valid()
      && r.delivered <= s.records[e.key].delivered + (if e.call.CompleteCall? then {e.call.channel} else {})
  {
  }

  lemma ReportKeepsWorkers(s: State, s': State, w: WorkerId, r: Record, e: Event)
    requires WorkersOk(s) && w in s.workers
    requires var p := s.workers[w];
      && (p.Sent? || p.Unsent?) && p.next < |p.claim.channels|
      && Asked(s, s', w, Delivering(p.claim, p.next + 1), r, e)
      && Reports(e.call, LastAttempt(w, p), w, p.claim.key, p.claim.channels[p.next])
      && r.channels == s.records[e.key].channels
    ensures WorkersOk(s')
  {
    assert PhaseOk(s, w, s.workers[w]);
    CheckpointPhase(s, s', w, e);
    AskKeepsWorkers(s, s', w, Delivering(s.workers[w].claim, s.workers[w].next + 1), r, e);
  }

  lemma CheckpointKeepsWorkers(s: State, w: WorkerId, stored: bool)
    requires WorkersOk(s) && Enabled(s, Checkpoint(w, stored))
    ensures WorkersOk(Apply(s, Checkpoint(w, stored)))
  {
    CheckpointAsks(s, w, stored);
    ReportKeepsWorkers(s, Apply(s, Checkpoint(w, stored)), w, AskedToCheckpoint(s, w, stored).1,
                       AskedToCheckpoint(s, w, stored).0);
  }

  lemma CheckpointKeepsBooks(s: State, w: WorkerId, stored: bool)
    requires BooksOk(s) && Enabled(s, Checkpoint(w, stored))
    requires var p := s.workers[w]; p.Sent? ==> SentBy(s.log, w, p.claim.key, p.claim.channels[p.next])
    ensures BooksOk(Apply(s, Checkpoint(w, stored)))
  {
    var (e, r) := AskedToCheckpoint(s, w, stored);
    CheckpointAsks(s, w, stored);
    CheckpointRecord(s, w, stored);
    AskKeepsBooks(s, Apply(s, Checkpoint(w, stored)), w, Delivering(s.workers[w].claim, s.workers[w].next + 1), r, e);
  }

  lemma SentWasSent(s: State, w: WorkerId)
    requires WorkersOk(s) && w in s.workers
    ensures var p := s.workers[w];
      p.Sent? && p.next < |p.claim.channels| ==> SentBy(s.log, w, p.claim.key, p.claim.channels[p.next])
  {
    assert PhaseOk(s, w, s.workers[w]);
  }

  lemma ReleaseRecord(s: State, w: WorkerId, stored: bool)
    requires RecordsOk(s) && w in s.workers && s.workers[w].claim.key in s.records
    ensures var (e, r) := AskedToRelease(s, w, stored);
      r.Valid() && r.delivered == s.records[e.key].delivered && r.channels == s.records[e.key].channels
  {
    ReleaseKeepsValid(s.records[s.workers[w].claim.key], s.workers[w].claim.token);
  }

  lemma ReleaseCompletes(calls: seq<Call>, attempts: seq<Event>, w: WorkerId, claim: DirectClaim, delivered: bool)
    requires ReportedUpTo(calls, attempts, w, claim, if delivered then |claim.channels| else 0)
    requires |attempts| == |calls|
    ensures CompleteCalls(calls + [ReleaseCall], attempts, w, claim, delivered)
  {
    assert (calls + [ReleaseCall])[..|calls|] == calls;
  }

  lemma ReleasePhase(s: State, s': State, w: WorkerId, p: Phase, e: Event)
    requires w in s.workers && (s.workers[w].Fenced? || s.workers[w].Delivering?) && PhaseOk(s, w, s.workers[w])
    requires s.workers[w].Delivering? ==>
      !s.workers[w].claim.deliverable || s.workers[w].next == |s.workers[w].claim.channels|
    requires p == if s.workers[w].Fenced? then Done(s.workers[w].claim, true) else Leaving(s.workers[w].claim)
    requires e == StoreCall(w, s.workers[w].claim.key, ReleaseCall)
    requires s'.log == s.log + [e] && KeepsRecords(s, s')
    ensures PhaseOk(s', w, p)
  {
    var claim := s.workers[w].claim;
    CallsAppend(s.log, e, w);
    ReleaseCompletes(CallsOf(s.log, w), AttemptsOf(s.log, w), w, claim, s.workers[w].Delivering? && claim.deliverable);
  }

  /** Worker w gives its claim up. */
  ghost predicate Releases(s: State, s': State, w: WorkerId, p: Phase, stored: bool) {
    && w in s.workers && (s.workers[w].Fenced? || s.workers[w].Delivering?) && s.workers[w].claim.key in s.records
    && (s.workers[w].Delivering? ==>
          !s.workers[w].claim.deliverable || s.workers[w].next == |s.workers[w].claim.channels|)
    && p == (if s.workers[w].Fenced? then Done(s.workers[w].claim, true) else Leaving(s.workers[w].claim))
    && var (e, r) := AskedToRelease(s, w, stored); Asked(s, s', w, p, r, e)
  }

  lemma ReleaseKeepsWorkers(s: State, s': State, w: WorkerId, p: Phase, stored: bool)
    requires WorkersOk(s) && Releases(s, s', w, p, stored)
    ensures WorkersOk(s')
  {
    var (e, r) := AskedToRelease(s, w, stored);
    ReleasePhase(s, s', w, p, e);
    AskKeepsWorkers(s, s', w, p, r, e);
  }

  lemma ReleaseKeepsBooks(s: State, s': State, w: WorkerId, p: Phase, stored: bool)
    requires BooksOk(s) && Releases(s, s', w, p, stored)
    ensures BooksOk(s')
  {
    var (e, r) := AskedToRelease(s, w, stored);
    ReleaseRecord(s, w, stored);
    AskKeepsBooks(s, s', w, p, r, e);
  }

  /** An attempt of the next channel, with the phase it leads to. */
  lemma OneMoreAttempt(calls: seq<Call>, attempts: seq<Event>, w: WorkerId, p: Phase, p': Phase)
    requires p.Delivering? && p.claim.deliverable && p.next < |p.claim.channels| && TraceOk(calls, attempts, w, p)
    requires (p'.Sent? || p'.Unsent?) && p'.claim == p.claim && p'.next == p.next
    ensures TraceOk(calls, attempts + [LastAttempt(w, p')], w, p')
  {
  }

  lemma DispatchPhase(s: State, s': State, w: WorkerId, p: Phase, p': Phase)
    requires PhaseOk(s, w, p) && KeepsRecords(s, s')
    requires p.Delivering? && p.claim.deliverable && p.next < |p.claim.channels|
    requires (p'.Sent? || p'.Unsent?) && p'.claim == p.claim && p'.next == p.next
    requires s'.log == s.log + [LastAttempt(w, p')]
    ensures PhaseOk(s', w, p')
  {
    CallsAppend(s.log, LastAttempt(w, p'), w);
    OneMoreAttempt(CallsOf(s.log, w), AttemptsOf(s.log, w), w, p, p');
    SentAppend(s.log, LastAttempt(w, p'), w, p.claim.key, p.claim.channels[p.next]);
  }

  lemma DispatchKeepsWorkers(s: State, w: WorkerId, known: bool, ok: bool)
    requires WorkersOk(s) && Enabled(s, Dispatch(w, known, ok))
    ensures WorkersOk(Apply(s, Dispatch(w, known, ok)))
  {
    var s' := Apply(s, Dispatch(w, known, ok));
    DispatchPhase(s, s', w, s.workers[w], s'.workers[w]);
    WorkersKept(s, s', w, s'.workers[w]);
  }

  lemma DispatchKeepsBooks(s: State, w: WorkerId, known: bool, ok: bool)
    requires BooksOk(s) && Enabled(s, Dispatch(w, known, ok))
    ensures BooksOk(Apply(s, Dispatch(w, known, ok)))
  {
    var s' := Apply(s, Dispatch(w, known, ok));
    AccountsKept(s, s', LastAttempt(w, s'.workers[w]));
    InFlightAfter(s.workers, w, s'.workers[w]);
  }

  lemma ClaimKeepsAccounts(s: State, s': State)
    requires Accounted(s) && s'.log == s.log && s'.records.Keys == s.records.Keys
    requires forall k | k in s.records :: s'.records[k].delivered == s.records[k].delivered
    ensures Accounted(s')
  {
  }

  /** A new worker has called nothing yet, and its claim is of channels the record has. */
  lemma ClaimKeepsWorkers(s: State, key: Key, lease: nat, deliverable: bool)
    requires WorkersOk(s) && Enabled(s, ClaimDirect(key, lease, deliverable))
    ensures WorkersOk(Apply(s, ClaimDirect(key, lease, deliverable)))
  {
    var s', w := Apply(s, ClaimDirect(key, lease, deliverable)), s.nextWorker;
    DueChannelsAreUnfinished(s.records[key], s.now, s.records[key].channels);
    NoCallsYet(s.log, w);
    WorkersKept(s, s', w, s'.workers[w]);
  }

  lemma ClaimKeepsBooks(s: State, key: Key, lease: nat, deliverable: bool)
    requires BooksOk(s) && Enabled(s, ClaimDirect(key, lease, deliverable)) && s.nextWorker !in s.workers
    ensures BooksOk(Apply(s, ClaimDirect(key, lease, deliverable)))
  {
    var s', w := Apply(s, ClaimDirect(key, lease, deliverable)), s.nextWorker;
    ClaimGranted(s.records[key], s.nextToken, s.now, lease);
    InFlightAfter(s.workers, w, s'.workers[w]);
    ClaimKeepsAccounts(s, s');
  }

  lemma EnterKeepsWorkers(s: State, w: WorkerId)
    requires WorkersOk(s) && Enabled(s, Enter(w))
    ensures WorkersOk(Apply(s, Enter(w)))
  {
    var s' := Apply(s, Enter(w));
    assert PhaseOk(s, w, s.workers[w]);
    WorkersKept(s, s', w, s'.workers[w]);
  }

  lemma LeaveKeepsWorkers(s: State, w: WorkerId)
    requires WorkersOk(s) && Enabled(s, Leave(w))
    ensures WorkersOk(Apply(s, Leave(w)))
  {
    var s' := Apply(s, Leave(w));
    assert PhaseOk(s, w, s.workers[w]);
    WorkersKept(s, s', w, s'.workers[w]);
  }

  lemma MoveKeepsBooks(s: State, action: Action)
    requires BooksOk(s) && Enabled(s, action) && (action.Enter? || action.Leave?)
    ensures BooksOk(Apply(s, action))
  {
    InFlightAfter(s.workers, action.worker, Apply(s, action).workers[action.worker]);
  }

  predicate IsEngineStep(action: Action) {
    action.Tick? || action.StartEngine? || action.LowerFence? || action.ReturnFromStop? || action.Crash?
  }

  lemma EngineKeepsWorkers(s: State, action: Action)
    requires WorkersOk(s) && Enabled(s, action) && (IsEngineStep(action) || action.Register?)
    ensures WorkersOk(Apply(s, action))
  {
    QuietKeepsWorkers(s, Apply(s, action));
  }

  lemma QuietKeepsWorkers(s: State, s': State)
    requires WorkersOk(s) && s'.log == s.log && s'.nextWorker == s.nextWorker && KeepsRecords(s, s')
    requires s'.workers == s.workers || s'.workers == map[]
    ensures WorkersOk(s')
  {
    forall w | w in s'.workers ensures PhaseOk(s', w, s'.workers[w]) {
      PhaseKept(s, s', w, s.workers[w]);
    }
  }

  lemma EngineKeepsBooks(s: State, action: Action)
    requires BooksOk(s) && Enabled(s, action) && IsEngineStep(action)
    ensures BooksOk(Apply(s, action))
  {
    if action.Crash? {
      assert InFlightOf(Apply(s, action).workers) == {};
    }
  }

  lemma RegisterKeepsBooks(s: State, key: Key, channels: seq<Channel>)
    requires BooksOk(s) && Enabled(s, Register(key, channels))
    ensures BooksOk(Apply(s, Register(key, channels)))
  {
    assert channels != [] ==> !NewRecord(channels).Settled(channels[0]);
  }

  lemma Preserved(s: State, action: Action)
    requires Inv(s) && Enabled(s, action)
    ensures Inv(Apply(s, action))
  {
    match action {
      case Register(key, channels) =>
        EngineKeepsWorkers(s, action);
        RegisterKeepsBooks(s, key, channels);
      case ClaimDirect(key, lease, deliverable) =>
        ClaimKeepsWorkers(s, key, lease, deliverable);
        ClaimKeepsBooks(s, key, lease, deliverable);
      case Dispatch(w, known, ok) =>
        DispatchKeepsWorkers(s, w, known, ok);
        DispatchKeepsBooks(s, w, known, ok);
      case Checkpoint(w, stored) =>
        SentWasSent(s, w);
        CheckpointKeepsWorkers(s, w, stored);
        CheckpointKeepsBooks(s, w, stored);
      case ReleaseFenced(w, stored) =>
        ReleaseKeepsWorkers(s, Apply(s, action), w, Done(s.workers[w].claim, true), stored);
        ReleaseKeepsBooks(s, Apply(s, action), w, Done(s.workers[w].claim, true), stored);
      case FinishClaim(w, stored) =>
        ReleaseKeepsWorkers(s, Apply(s, action), w, Leaving(s.workers[w].claim), stored);
        ReleaseKeepsBooks(s, Apply(s, action), w, Leaving(s.workers[w].claim), stored);
      case Enter(w) =>
        EnterKeepsWorkers(s, w);
        MoveKeepsBooks(s, action);
      case Leave(w) =>
        LeaveKeepsWorkers(s, w);
        MoveKeepsBooks(s, action);
      case _ =>
        EngineKeepsWorkers(s, action);
        EngineKeepsBooks(s, action);
    }
  }

  lemma {:induction false} Reachable(states: seq<State>, actions: seq<Action>, k: nat)
    requires IsRun(states, actions) && k < |states|
    ensures Inv(states[k])
  {
    if k > 0 {
      Reachable(states, actions, k - 1);
      Preserved(states[k - 1], actions[k - 1]);
    }
  }

  // ---- exactly one release, one checkpoint per channel ----

  function Count(calls: seq<Call>, call: Call): nat {
    if calls == [] then 0 else (if calls[0] == call then 1 else 0) + Count(calls[1..], call)
  }

  lemma {:induction false} OneRelease(calls: seq<Call>)
    requires |calls| >= 1 && calls[|calls| - 1] == ReleaseCall
    requires forall i | 0 <= i < |calls| - 1 :: calls[i] != ReleaseCall
    ensures Count(calls, ReleaseCall) == 1
  {
    if |calls| > 1 {
      OneRelease(calls[1..]);
    }
  }

  /** Whether it was fenced, malformed or delivered, a finished claim made exactly one release. A delivered one
      attempted each channel of the claim once, in order, and told the store of each attempt as it went: complete
      exactly if the dispatch succeeded, failed for good exactly if the channel is not configured, and failed for
      now exactly if the dispatch failed. */
  lemma FinishedClaimCalls(states: seq<State>, actions: seq<Action>, k: nat, w: WorkerId)
    requires IsRun(states, actions) && k < |states|
    requires w in states[k].workers && states[k].workers[w].Done?
    ensures var calls, attempts, p := CallsOf(states[k].log, w), AttemptsOf(states[k].log, w), states[k].workers[w];
      && Count(calls, ReleaseCall) == 1
      && |calls| == 1 + (if p.fenced || !p.claim.deliverable then 0 else |p.claim.channels|)
      && calls[|calls| - 1] == ReleaseCall
      && |attempts| == |calls| - 1
      && (forall i | 0 <= i < |attempts| :: Reports(calls[i], attempts[i], w, p.claim.key, p.claim.channels[i]))
  {
    Reachable(states, actions, k);
    DoneTrace(states[k], w);
    OneRelease(CallsOf(states[k].log, w));
  }

  lemma DoneTrace(s: State, w: WorkerId)
    requires WorkersOk(s) && w in s.workers && s.workers[w].Done?
    ensures var p := s.workers[w];
      CompleteCalls(CallsOf(s.log, w), AttemptsOf(s.log, w), w, p.claim, !p.fenced && p.claim.deliverable)
  {
    assert PhaseOk(s, w, s.workers[w]);
  }

  /** A completion that the store takes leaves the channel delivered, whenever the record still holds the claim. */
  lemma StoredCompletionDelivers(states: seq<State>, actions: seq<Action>, k: nat, w: WorkerId)
    requires IsRun(states, actions) && k < |actions| && actions[k] == Checkpoint(w, true)
    requires Enabled(states[k], actions[k]) && states[k].workers[w].Sent?
    requires states[k].records[states[k].workers[w].claim.key].token == Some(states[k].workers[w].claim.token)
    ensures var p := states[k].workers[w];
      p.claim.key in states[k + 1].records && p.claim.channels[p.next] in states[k + 1].records[p.claim.key].delivered
  {
    Reachable(states, actions, k);
    var p := states[k].workers[w];
    assert PhaseOk(states[k], w, p);
    assert p.claim.channels[p.next] in p.claim.channels;
  }

  lemma DeliveredKept(s: State, action: Action, key: Key)
    requires RecordsOk(s) && Enabled(s, action) && key in s.records
    ensures key in Apply(s, action).records && s.records[key].delivered <= Apply(s, action).records[key].delivered
  {
    if action.ClaimDirect? {
      ClaimGranted(s.records[action.key], s.nextToken, s.now, action.lease);
    }
  }

  /** What was delivered stays delivered, over failures, crashes and recoveries. */
  lemma {:induction false} DeliveredOnlyGrows(states: seq<State>, actions: seq<Action>, i: nat, j: nat, key: Key)
    requires IsRun(states, actions) && i <= j < |states| && key in states[i].records
    ensures key in states[j].records && states[i].records[key].delivered <= states[j].records[key].delivered
  {
    if i < j {
      DeliveredOnlyGrows(states, actions, i, j - 1, key);
      DeliveredKeptAt(states, actions, j - 1, key);
    }
  }

  lemma DeliveredKeptAt(states: seq<State>, actions: seq<Action>, k: nat, key: Key)
    requires IsRun(states, actions) && k < |actions| && key in states[k].records
    ensures key in states[k + 1].records && states[k].records[key].delivered <= states[k + 1].records[key].delivered
  {
    Reachable(states, actions, k);
    assert Enabled(states[k], actions[k]);
    DeliveredKept(states[k], actions[k], key);
  }

  /** No worker is ever stuck: until it is done some step of its own is enabled. */
  lemma WorkersNeverStuck(states: seq<State>, actions: seq<Action>, k: nat, w: WorkerId)
    requires IsRun(states, actions) && k < |states| && w in states[k].workers && !states[k].workers[w].Done?
    ensures Enabled(states[k], Enter(w)) || Enabled(states[k], ReleaseFenced(w, true)) ||
      Enabled(states[k], Dispatch(w, true, true)) || Enabled(states[k], Checkpoint(w, true)) ||
      Enabled(states[k], FinishClaim(w, true)) || Enabled(states[k], Leave(w))
  {
    Reachable(states, actions, k);
    NotStuck(states[k], w);
  }

  lemma NotStuck(s: State, w: WorkerId)
    requires EngineOk(s) && w in s.workers && !s.workers[w].Done? && PhaseOk(s, w, s.workers[w])
    ensures Enabled(s, Enter(w)) || Enabled(s, ReleaseFenced(w, true)) || Enabled(s, Dispatch(w, true, true)) ||
      Enabled(s, Checkpoint(w, true)) || Enabled(s, FinishClaim(w, true)) || Enabled(s, Leave(w))
  {
    InRange(s, w, s.workers[w]);
    CountedIsInFlight(s, w);
    HasStep(s, w);
  }

  predicate NextInRange(s: State, p: Phase) {
    && p.claim.key in s.records
    && (p.Sent? || p.Unsent? ==> p.next < |p.claim.channels|)
    && (p.Delivering? ==> p.next <= |p.claim.channels|)
  }

  lemma InRange(s: State, w: WorkerId, p: Phase)
    requires PhaseOk(s, w, p)
    ensures NextInRange(s, p)
  {
  }

  lemma CountedIsInFlight(s: State, w: WorkerId)
    requires EngineOk(s) && w in s.workers
    ensures Counted(s.workers[w]) ==> s.inFlight > 0
  {
    if Counted(s.workers[w]) {
      assert w in InFlightOf(s.workers);
    }
  }

  lemma HasStep(s: State, w: WorkerId)
    requires w in s.workers && !s.workers[w].Done? && NextInRange(s, s.workers[w])
    requires Counted(s.workers[w]) ==> s.inFlight > 0
    ensures Enabled(s, Enter(w)) || Enabled(s, ReleaseFenced(w, true)) || Enabled(s, Dispatch(w, true, true)) ||
      Enabled(s, Checkpoint(w, true)) || Enabled(s, FinishClaim(w, true)) || Enabled(s, Leave(w))
  {
  }

  // ---- completion only after a send ----

  lemma {:induction false} CompletionsPrefix(log: seq<Event>, i: nat)
    requires CompletionsFollowSends(log) && i < |log| && log[i].StoreCall? && log[i].call.CompleteCall?
    ensures SentBy(log[..i], log[i].worker, log[i].key, log[i].call.channel)
  {
    if i < |log| - 1 {
      CompletionsPrefix(log[..|log| - 1], i);
      assert log[..|log| - 1][..i] == log[..i];
    }
  }

  /** Over claims, failures, crashes and recoveries, each completion follows the same worker's successful
      dispatch to that channel, and every channel the store holds as delivered was sent. */
  lemma CompletedOnlyAfterSend(states: seq<State>, actions: seq<Action>, k: nat, i: nat, key: Key, channel: Channel)
    requires IsRun(states, actions) && k < |states|
    ensures i < |states[k].log| && states[k].log[i].StoreCall? && states[k].log[i].call.CompleteCall? ==>
      SentBy(states[k].log[..i], states[k].log[i].worker, states[k].log[i].key, states[k].log[i].call.channel)
    ensures key in states[k].records && channel in states[k].records[key].delivered ==>
      SentTo(states[k].log, key, channel)
  {
    Reachable(states, actions, k);
    if i < |states[k].log| && states[k].log[i].StoreCall? && states[k].log[i].call.CompleteCall? {
      CompletionsPrefix(states[k].log, i);
    }
  }

  /** A message the store has closed lost no channel: each was sent or has failed terminally. */
  lemma ClosedMessageIsAccounted(states: seq<State>, actions: seq<Action>, k: nat, key: Key, channel: Channel)
    requires IsRun(states, actions) && k < |states|
    requires key in states[k].records && states[k].records[key].completed
    requires channel in states[k].records[key].channels
    ensures SentTo(states[k].log, key, channel) || states[k].records[key].FailureOf(channel).terminal
  {
    Reachable(states, actions, k);
    assert states[k].records[key].Valid();
    assert states[k].records[key].Settled(channel);
  }

  // ---- the shutdown drain ----

  predicate Lowered(s: State) {
    s.lifecycle == Fencing || s.lifecycle == Stopped
  }

  /** A claim that enters is fenced exactly if Stop has lowered the flag, and is then not counted; otherwise it is
      counted and its delivery begins with the first channel. */
  lemma FenceHolds(states: seq<State>, actions: seq<Action>, k: nat, w: WorkerId)
    requires IsRun(states, actions) && k < |states| && Enabled(states[k], Enter(w))
    ensures var (s, s') := (states[k], Apply(states[k], Enter(w)));
      && (s'.workers[w].Fenced? <==> Lowered(s))
      && (Lowered(s) ==> s'.inFlight == s.inFlight)
      && (!Lowered(s) ==> s'.workers[w] == Delivering(s.workers[w].claim, 0) && s'.inFlight == s.inFlight + 1)
  {
    EngineReachable(states, actions, k);
  }

  lemma DrainStep(s: State, action: Action)
    requires EngineOk(s) && Enabled(s, action) && action != StartEngine && action != Crash && Lowered(s)
    ensures InFlightOf(Apply(s, action).workers) <= InFlightOf(s.workers) && Lowered(Apply(s, action))
  {
    var workers, workers' := s.workers, Apply(s, action).workers;
    forall w | w in InFlightOf(workers') ensures w in InFlightOf(workers) {
      assert w in workers' && Counted(workers'[w]);
    }
  }

  /** From the moment Stop lowers the flag until the engine is started again or crashes, the deliveries in
      flight only drain; once Stop has returned there are none. */
  lemma {:induction false} DrainIsFinal(states: seq<State>, actions: seq<Action>, i: nat, j: nat)
    requires IsRun(states, actions) && i <= j < |states| && Lowered(states[i])
    requires forall m | i <= m < j :: actions[m] != StartEngine && actions[m] != Crash
    ensures InFlightOf(states[j].workers) <= InFlightOf(states[i].workers) && Lowered(states[j])
    ensures states[j].lifecycle == Stopped ==> InFlightOf(states[j].workers) == {}
  {
    if i < j {
      DrainIsFinal(states, actions, i, j - 1);
      EngineReachable(states, actions, j - 1);
      assert Enabled(states[j - 1], actions[j - 1]) && states[j] == Apply(states[j - 1], actions[j - 1]);
      DrainStep(states[j - 1], actions[j - 1]);
    }
    EngineReachable(states, actions, j);
    NoneInFlightWhenStopped(states[j]);
  }

  lemma EngineReachable(states: seq<State>, actions: seq<Action>, k: nat)
    requires IsRun(states, actions) && k < |states|
    ensures EngineOk(states[k])
  {
    Reachable(states, actions, k);
  }

  lemma NoneInFlightWhenStopped(s: State)
    requires EngineOk(s)
    ensures s.lifecycle == Stopped ==> InFlightOf(s.workers) == {}
  {
  }

  // ---- the sequential code of one claim ----

  /** What the environment answers for one channel: it is not configured, its dispatch failed, or it was
      sent and then the completion was or was not recorded. */
  datatype Outcome = Missing | Rejected | Accepted(recorded: bool)

  /** The call reports the outcome: complete exactly if the dispatch succeeded, failed for good exactly if the
      channel is not configured, failed for now otherwise. */
  predicate Tells(call: Call, channel: Channel, outcome: Outcome) {
    && (call == CompleteCall(channel) <==> outcome.Accepted?)
    && (call == FailCall(channel, true) <==> outcome.Missing?)
    && (call == FailCall(channel, false) <==> outcome.Rejected?)
  }

  /** The dispatches made for the first `n` channels: one for each that is configured, with its outcome. */
  function SendsUpTo(channels: seq<Channel>, outcomes: seq<Outcome>, n: nat): seq<(Channel, bool)>
    requires n <= |channels| == |outcomes|
  {
    if n == 0 then []
    else if outcomes[n - 1].Missing? then SendsUpTo(channels, outcomes, n - 1)
    else SendsUpTo(channels, outcomes, n - 1) + [(channels[n - 1], outcomes[n - 1].Accepted?)]
  }

  class DirectRunner {
    var initialized: bool
    var accepting: bool
    var inFlight: nat
    var calls: seq<Call>
    var sends: seq<(Channel, bool)>

    /** deliverDirectClaim: `released` is the store's answer to the final release. */
    method DeliverDirectClaim(claim: DirectClaim, outcomes: seq<Outcome>, released: bool) returns (ok: bool)
      requires |outcomes| == |claim.channels|
      modifies this`calls, this`sends
      ensures |calls| == |old(calls)| + 1 + (if claim.deliverable then |claim.channels| else 0)
      ensures calls[..|old(calls)|] == old(calls) && calls[|calls| - 1] == ReleaseCall
      ensures claim.deliverable ==> forall i | 0 <= i < |claim.channels| ::
        Tells(calls[|old(calls)| + i], claim.channels[i], outcomes[i])
      ensures sends == old(sends) + SendsUpTo(claim.channels, outcomes, if claim.deliverable then |outcomes| else 0)
      ensures ok <==> claim.deliverable && released && forall i | 0 <= i < |outcomes| :: outcomes[i] == Accepted(true)
    {
      if !claim.deliverable {
        calls := calls + [ReleaseCall];
        return false;
      }
      ok := true;
      for i := 0 to |claim.channels|
        invariant |calls| == |old(calls)| + i && calls[..|old(calls)|] == old(calls)
        invariant forall m | 0 <= m < i :: Tells(calls[|old(calls)| + m], claim.channels[m], outcomes[m])
        invariant sends == old(sends) + SendsUpTo(claim.channels, outcomes, i)
        invariant ok <==> forall m | 0 <= m < i :: outcomes[m] == Accepted(true)
      {
        var channel := claim.channels[i];
        match outcomes[i] {
          case Missing =>
            calls := calls + [FailCall(channel, true)];
            ok := false;
          case Rejected =>
            sends := sends + [(channel, false)];
            calls := calls + [FailCall(channel, false)];
            ok := false;
          case Accepted(recorded) =>
            sends := sends + [(channel, true)];
            calls := calls + [CompleteCall(channel)];
            if !recorded {
              ok := false;
            }
        }
      }
      calls := calls + [ReleaseCall];
      if !released {
        ok := false;
      }
    }

    /** runDirectClaim: a fenced claim is only released; any other is delivered inside the wait group. */
    method RunDirectClaim(claim: DirectClaim, outcomes: seq<Outcome>, released: bool) returns (ok: bool)
      requires |outcomes| == |claim.channels|
      modifies this`calls, this`sends, this`inFlight
      ensures inFlight == old(inFlight) && |calls| > |old(calls)|
      ensures initialized && !accepting ==> !ok && calls == old(calls) + [ReleaseCall] && sends == old(sends)
      ensures !(initialized && !accepting) && claim.deliverable ==>
        && |calls| == |old(calls)| + |claim.channels| + 1
        && (forall i | 0 <= i < |claim.channels| :: Tells(calls[|old(calls)| + i], claim.channels[i], outcomes[i]))
        && sends == old(sends) + SendsUpTo(claim.channels, outcomes, |outcomes|)
      ensures !(initialized && !accepting) ==>
        (ok <==> claim.deliverable && released && forall i | 0 <= i < |outcomes| :: outcomes[i] == Accepted(true))
      ensures calls[|calls| - 1] == ReleaseCall && calls[..|old(calls)|] == old(calls)
    {
      if initialized && !accepting {
        calls := calls + [ReleaseCall];
        return false;
      }
      inFlight := inFlight + 1;
      ok := DeliverDirectClaim(claim, outcomes, released);
      inFlight := inFlight - 1;
    }
  }
}
