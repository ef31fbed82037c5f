/**
 The digest delivery worker: attempts of one claimed batch compete for a fixed number of send slots, a send
 may outlive its attempt, and the claim is held for a time computed from the number of waves.
 */
module DeliverySlots {

  type AttemptId = nat

  // ---- options ----

  datatype DeliveryOptions = DeliveryOptions(attemptTtl: nat, sendTimeout: nat, batchSize: nat, concurrency: nat)

  const COMMIT_TIMEOUT: nat := 10

  /** The options as a caller gives them, negative ones included. */
  datatype GivenOptions = GivenOptions(attemptTtl: int, sendTimeout: int, batchSize: int, concurrency: int)

  function OrDefault(given: int, fallback: nat): (r: nat)
    ensures r == fallback || (r > 0 && r == given)
  {
    if given <= 0 then fallback else given
  }

  /** newDigestDeliveryWorker replaces every option that is not positive. */
  function WithDefaults(given: GivenOptions): (r: DeliveryOptions)
    ensures r.attemptTtl > 0 && r.sendTimeout > 0 && r.batchSize > 0 && r.concurrency > 0
    ensures (given.attemptTtl <= 0 ==> r.attemptTtl == 120) && (given.sendTimeout <= 0 ==> r.sendTimeout == 45)
    ensures (given.batchSize <= 0 ==> r.batchSize == 20) && (given.concurrency <= 0 ==> r.concurrency == 4)
    ensures given.attemptTtl > 0 ==> r.attemptTtl == given.attemptTtl
    ensures given.sendTimeout > 0 ==> r.sendTimeout == given.sendTimeout
    ensures given.batchSize > 0 ==> r.batchSize == given.batchSize
    ensures given.concurrency > 0 ==> r.concurrency == given.concurrency
  {
    DeliveryOptions(OrDefault(given.attemptTtl, 120), OrDefault(given.sendTimeout, 45),
                    OrDefault(given.batchSize, 20), OrDefault(given.concurrency, 4))
  }

  function Waves(batch: nat, concurrency: nat): nat
    requires concurrency > 0
  {
    (batch + concurrency - 1) / concurrency
  }

  /** The claim lifetime runCycle asks for. */
  function ClaimTtl(o: DeliveryOptions): nat
    requires o.concurrency > 0
  {
    var minimum := Waves(o.batchSize, o.concurrency) * o.sendTimeout + COMMIT_TIMEOUT;
    if o.attemptTtl < minimum then minimum else o.attemptTtl
  }

  // ---- slots over any number of cycles ----

  datatype Phase = Waiting | Sending | Resolved | Recorded

  /** `tokens` is the fill of the slot channel. A send goroutine is in `sending` until the channel call
      returns and in `returning` until it has taken its token out. */
  datatype Worker = Worker(
    tokens: nat,
    attempts: map<AttemptId, Phase>,
    sending: set<AttemptId>,
    returning: set<AttemptId>,
    records: seq<AttemptId>)

  datatype Action =
    | ClaimBatch(batch: set<AttemptId>)
    | TakeSlot(id: AttemptId)
    | GiveUpWaiting(id: AttemptId)
    | SendReturns(id: AttemptId)
    | FreeSlot(id: AttemptId)
    | ReceiveResult(id: AttemptId)
    | TimeOut(id: AttemptId)
    | RecordAttempt(id: AttemptId)

  predicate Enabled(c: nat, w: Worker, a: Action) {
    match a
    // attemptsWG.Wait: the next claim waits for every attempt of this one; a claim makes new attempts.
    case ClaimBatch(batch) => batch !! w.attempts.Keys && forall id | id in w.attempts :: w.attempts[id] == Recorded
    case TakeSlot(id) => id in w.attempts && w.attempts[id] == Waiting && w.tokens < c
    case GiveUpWaiting(id) => id in w.attempts && w.attempts[id] == Waiting
    case SendReturns(id) => id in w.sending
    case FreeSlot(id) => id in w.returning && w.tokens > 0
    case ReceiveResult(id) => id in w.attempts && w.attempts[id] == Sending && id !in w.sending
    case TimeOut(id) => id in w.attempts && w.attempts[id] == Sending
    case RecordAttempt(id) => id in w.attempts && w.attempts[id] == Resolved
  }

  function Apply(w: Worker, a: Action): Worker {
    match a
    case ClaimBatch(batch) => w.(attempts := w.attempts + map id | id in batch :: Waiting)
    case TakeSlot(id) =>
      w.(tokens := w.tokens + 1, attempts := w.attempts[id := Sending], sending := w.sending + {id})
    case GiveUpWaiting(id) => w.(attempts := w.attempts[id := Resolved])
    case SendReturns(id) => w.(sending := w.sending - {id}, returning := w.returning + {id})
    case FreeSlot(id) => w.(tokens := if w.tokens > 0 then w.tokens - 1 else 0, returning := w.returning - {id})
    case ReceiveResult(id) => w.(attempts := w.attempts[id := Resolved])
    case TimeOut(id) => w.(attempts := w.attempts[id := Resolved])
    case RecordAttempt(id) => w.(attempts := w.attempts[id := Recorded], records := w.records + [id])
  }

  ghost predicate IsRun(c: nat, states: seq<Worker>, actions: seq<Action>) {
    && |states| == |actions| + 1
    && states[0] == Worker(0, map[], {}, {}, [])
    && (forall i {:trigger actions[i]} | 0 <= i < |actions| ::
          Enabled(c, states[i], actions[i]) && states[i + 1] == Apply(states[i], actions[i]))
  }

  ghost predicate TokensOk(c: nat, w: Worker) {
    && w.sending !! w.returning
    && w.tokens == |w.sending| + |w.returning| <= c
    && (forall id | id in w.sending || id in w.returning :: id in w.attempts && w.attempts[id] != Waiting)
  }

  ghost predicate RecordsOk(w: Worker) {
    forall id :: Occurrences(w.records, id) == if id in w.attempts && w.attempts[id] == Recorded then 1 else 0
  }

  function Occurrences(s: seq<AttemptId>, id: AttemptId): nat {
    if s == [] then 0 else Occurrences(s[..|s| - 1], id) + if s[|s| - 1] == id then 1 else 0
  }

  lemma TokenStep(c: nat, w: Worker, a: Action)
    requires TokensOk(c, w) && Enabled(c, w, a)
    ensures TokensOk(c, Apply(w, a))
  {
  }

  /** In every reachable state, whatever the sends do and however long they outlive their attempts, at most
      `concurrency` sends run; every attempt is recorded at most once, and exactly once when its cycle is over. */
  lemma {:induction false} SendsAreBounded(c: nat, states: seq<Worker>, actions: seq<Action>, k: nat)
    requires IsRun(c, states, actions) && k < |states|
    ensures TokensOk(c, states[k]) && RecordsOk(states[k])
    ensures |states[k].sending| <= c
    ensures forall id | id in states[k].attempts && states[k].attempts[id] == Waiting ::
      Enabled(c, states[k], TakeSlot(id)) <==> |states[k].sending| + |states[k].returning| < c
  {
    if k > 0 {
      SendsAreBounded(c, states, actions, k - 1);
      TokenStep(c, states[k - 1], actions[k - 1]);
    }
  }

  // ---- an undisturbed attempt gets through ----

  /** The steps can be taken one after the other from w, and end in v. */
  ghost predicate Leads(c: nat, w: Worker, steps: seq<Action>, v: Worker)
    decreases |steps|
  {
    if steps == [] then v == w else Enabled(c, w, steps[0]) && Leads(c, Apply(w, steps[0]), steps[1..], v)
  }

  lemma Then(c: nat, w: Worker, a: Action, rest: seq<Action>, v: Worker)
    requires Enabled(c, w, a) && Leads(c, Apply(w, a), rest, v)
    ensures Leads(c, w, [a] + rest, v)
  {
    assert ([a] + rest)[1..] == rest;
  }

  /** A waiting attempt with a slot free is sent, gives its slot back and is recorded: one more record, and all slots
      as they were. */
  lemma UndisturbedAttemptIsRecorded(c: nat, w: Worker, id: AttemptId) returns (v: Worker)
    requires TokensOk(c, w) && id in w.attempts && w.attempts[id] == Waiting && |w.sending| + |w.returning| < c
    ensures Leads(c, w, [TakeSlot(id), SendReturns(id), FreeSlot(id), ReceiveResult(id), RecordAttempt(id)], v)
    ensures v == w.(attempts := w.attempts[id := Recorded], records := w.records + [id])
  {
    var sent := Apply(w, TakeSlot(id));
    v := SentIsRecorded(c, sent, id);
    Then(c, w, TakeSlot(id), [SendReturns(id), FreeSlot(id), ReceiveResult(id), RecordAttempt(id)], v);
    assert [TakeSlot(id)] + [SendReturns(id), FreeSlot(id), ReceiveResult(id), RecordAttempt(id)] ==
      [TakeSlot(id), SendReturns(id), FreeSlot(id), ReceiveResult(id), RecordAttempt(id)];
    assert v.sending == w.sending && v.returning == w.returning;
  }

  /** A running send gives its slot back when it returns, and its attempt is recorded. */
  lemma SentIsRecorded(c: nat, w: Worker, id: AttemptId) returns (v: Worker)
    requires id in w.attempts && w.attempts[id] == Sending && id in w.sending && w.tokens > 0
    ensures Leads(c, w, [SendReturns(id), FreeSlot(id), ReceiveResult(id), RecordAttempt(id)], v)
    ensures v == w.(tokens := w.tokens - 1, sending := w.sending - {id}, returning := w.returning - {id},
                    attempts := w.attempts[id := Recorded], records := w.records + [id])
  {
    var a := Apply(w, SendReturns(id));
    var b := Apply(a, FreeSlot(id));
    v := ResultIsRecorded(c, b, id);
    Then(c, a, FreeSlot(id), [ReceiveResult(id), RecordAttempt(id)], v);
    assert [FreeSlot(id)] + [ReceiveResult(id), RecordAttempt(id)] ==
      [FreeSlot(id), ReceiveResult(id), RecordAttempt(id)];
    Then(c, w, SendReturns(id), [FreeSlot(id), ReceiveResult(id), RecordAttempt(id)], v);
    assert [SendReturns(id)] + [FreeSlot(id), ReceiveResult(id), RecordAttempt(id)] ==
      [SendReturns(id), FreeSlot(id), ReceiveResult(id), RecordAttempt(id)];
    assert w.returning + {id} - {id} == w.returning - {id};
  }

  lemma ResultIsRecorded(c: nat, w: Worker, id: AttemptId) returns (v: Worker)
    requires id in w.attempts && w.attempts[id] == Sending && id !in w.sending
    ensures Leads(c, w, [ReceiveResult(id), RecordAttempt(id)], v)
    ensures v == w.(attempts := w.attempts[id := Recorded], records := w.records + [id])
  {
    var a := Apply(w, ReceiveResult(id));
    v := Apply(a, RecordAttempt(id));
    Then(c, a, RecordAttempt(id), [], v);
    Then(c, w, ReceiveResult(id), [RecordAttempt(id)] + [], v);
    assert [ReceiveResult(id)] + ([RecordAttempt(id)] + []) == [ReceiveResult(id), RecordAttempt(id)];
  }

  // ---- one batch on the clock ----

  /** A started send with its place in the starting order. */
  datatype Start = Start(rank: nat, at: nat)

  datatype Clock = Clock(
    now: nat,
    waiting: set<AttemptId>,
    running: map<AttemptId, Start>,
    sent: map<AttemptId, nat>,
    committed: map<AttemptId, nat>,
    started: nat)

  datatype Tick = Begin(id: AttemptId) | End(id: AttemptId) | CommitResult(id: AttemptId) | Advance(to: nat)

  /** Time passes only while no attempt could take a free slot, no send exceeds the timeout, and no
      CompleteAttempt call exceeds its own. */
  ghost predicate CanTick(o: DeliveryOptions, s: Clock, t: Tick) {
    match t
    case Begin(id) => id in s.waiting && |s.running| < o.concurrency
    case End(id) => id in s.running
    case CommitResult(id) => id in s.sent && id !in s.committed
    case Advance(to) =>
      && s.now < to
      && (s.waiting == {} || |s.running| == o.concurrency)
      && (forall id | id in s.running :: to <= s.running[id].at + o.sendTimeout)
      && (forall id | id in s.sent && id !in s.committed :: to <= s.sent[id] + COMMIT_TIMEOUT)
  }

  function AfterTick(s: Clock, t: Tick): Clock {
    match t
    case Begin(id) =>
      s.(waiting := s.waiting - {id}, running := s.running[id := Start(s.started, s.now)], started := s.started + 1)
    case End(id) => s.(running := s.running - {id}, sent := s.sent[id := s.now])
    case CommitResult(id) => s.(committed := s.committed[id := s.now])
    case Advance(to) => s.(now := to)
  }

  /** A batch claimed at time 0 with every slot free. */
  ghost predicate IsSchedule(o: DeliveryOptions, batch: set<AttemptId>, states: seq<Clock>, ticks: seq<Tick>) {
    && |states| == |ticks| + 1
    && states[0] == Clock(0, batch, map[], map[], map[], 0)
    && (forall i {:trigger ticks[i]} | 0 <= i < |ticks| ::
          CanTick(o, states[i], ticks[i]) && states[i + 1] == AfterTick(states[i], ticks[i]))
  }

  /** When the send that is `rank`-th to start has started at the latest: one timeout for each full wave before. */
  function Deadline(o: DeliveryOptions, rank: nat): nat
    requires o.concurrency > 0
  {
    if rank < o.concurrency then 0 else Deadline(o, rank - o.concurrency) + o.sendTimeout
  }

  /** When all sends of a batch of `n` are over at the latest. */
  function BatchEnd(o: DeliveryOptions, n: nat): nat
    requires o.concurrency > 0
  {
    if n == 0 then 0 else Deadline(o, n - 1) + o.sendTimeout
  }

  ghost predicate RunningOk(o: DeliveryOptions, s: Clock)
    requires o.concurrency > 0
  {
    && (forall id | id in s.running :: s.running[id].rank < s.started && s.running[id].at <= Deadline(o, s.running[id].rank))
    && (forall id | id in s.running :: s.running[id].at <= s.now <= s.running[id].at + o.sendTimeout)
    && DistinctRanks(s.running)
  }

  ghost predicate ScheduleOk(o: DeliveryOptions, n: nat, s: Clock)
    requires o.concurrency > 0
  {
    RunningOk(o, s) && BatchOk(o, n, s)
  }

  ghost predicate BatchOk(o: DeliveryOptions, n: nat, s: Clock)
    requires o.concurrency > 0
  {
    && |s.waiting| + s.started == n
    && s.committed.Keys <= s.sent.Keys
    && (s.waiting != {} ==> s.now <= Deadline(o, s.started))
    && (forall id | id in s.sent :: s.sent[id] <= BatchEnd(o, n))
    && (forall id | id in s.sent && id !in s.committed :: s.now <= s.sent[id] + COMMIT_TIMEOUT)
    && (forall id | id in s.committed :: s.committed[id] <= BatchEnd(o, n) + COMMIT_TIMEOUT)
  }

  lemma {:induction false} DeadlineMonotone(o: DeliveryOptions, a: nat, b: nat)
    requires o.concurrency > 0 && a <= b
    ensures Deadline(o, a) <= Deadline(o, b)
    decreases b
  {
    if a >= o.concurrency {
      DeadlineMonotone(o, a - o.concurrency, b - o.concurrency);
    }
  }

  /** A send of rank r that started in time ends within the time of its batch. */
  lemma EndsWithinBatch(o: DeliveryOptions, r: nat, n: nat)
    requires o.concurrency > 0 && r < n
    ensures Deadline(o, r) + o.sendTimeout <= BatchEnd(o, n)
  {
    DeadlineMonotone(o, r, n - 1);
  }

  lemma BatchEndMonotone(o: DeliveryOptions, a: nat, b: nat)
    requires o.concurrency > 0 && a <= b
    ensures BatchEnd(o, a) <= BatchEnd(o, b)
  {
    if a > 0 {
      DeadlineMonotone(o, a - 1, b - 1);
    }
  }

  lemma OneMoreWave(n: nat, c: nat)
    requires 0 < c < n
    ensures Waves(n, c) == Waves(n - c, c) + 1
  {
    var (q, m) := ((n - 1) / c, (n - 1) % c);
    assert n - 1 == q * c + m;
    assert n + c - 1 == (q + 1) * c + m;
    Quotient(n + c - 1, c, q + 1, m);
  }

  lemma Quotient(x: nat, c: nat, q: nat, m: nat)
    requires m < c && x == q * c + m
    ensures x / c == q
  {
    if x / c < q {
      MulMonotone(x / c + 1, q, c);
    } else if x / c > q {
      MulMonotone(q + 1, x / c, c);
    }
  }

  lemma MulMonotone(a: nat, b: nat, t: nat)
    requires a <= b
    ensures a * t <= b * t
  {
  }

  /** The recursive bound is the number of waves times the timeout, as the worker computes it. */
  lemma {:induction false} BatchEndIsWaves(o: DeliveryOptions, n: nat)
    requires o.concurrency > 0
    ensures BatchEnd(o, n) == Waves(n, o.concurrency) * o.sendTimeout
  {
    if n == 0 {
      Quotient(o.concurrency - 1, o.concurrency, 0, o.concurrency - 1);
    } else if n <= o.concurrency {
      Quotient(n + o.concurrency - 1, o.concurrency, 1, n - 1);
    } else {
      BatchEndIsWaves(o, n - o.concurrency);
      OneMoreWave(n, o.concurrency);
    }
  }

  ghost predicate DistinctRanks(m: map<AttemptId, Start>) {
    forall a, b | a in m && b in m && a != b :: m[a].rank != m[b].rank
  }

  /** c distinct ranks below n cannot all exceed n - c. */
  lemma {:induction false} SmallestRank(m: map<AttemptId, Start>, n: nat, c: nat) returns (id: AttemptId)
    requires 0 < c <= |m| && DistinctRanks(m)
    requires forall a | a in m :: m[a].rank < n
    ensures id in m && m[id].rank + c <= n
    decreases n
  {
    assert m.Keys != {};
    id :| id in m;
    if c > 1 || m[id].rank + 1 > n {
      if top :| top in m && m[top].rank == n - 1 {
        var rest := m - {top};
        assert m.Keys == rest.Keys + {top};
        id := SmallestRank(rest, n - 1, c - 1);
      } else {
        id := SmallestRank(m, n - 1, c);
      }
    }
  }

  lemma AdvanceStep(o: DeliveryOptions, n: nat, s: Clock, to: nat)
    requires o.concurrency > 0 && ScheduleOk(o, n, s) && CanTick(o, s, Advance(to))
    ensures ScheduleOk(o, n, AfterTick(s, Advance(to)))
  {
    if s.waiting != {} {
      var id := SmallestRank(s.running, s.started, o.concurrency);
      var r := s.running[id].rank;
      DeadlineMonotone(o, r + o.concurrency, s.started);
    }
  }

  lemma EndStep(o: DeliveryOptions, n: nat, s: Clock, id: AttemptId)
    requires o.concurrency > 0 && ScheduleOk(o, n, s) && CanTick(o, s, End(id))
    ensures ScheduleOk(o, n, AfterTick(s, End(id)))
  {
    EndsWithinBatch(o, s.running[id].rank, n);
  }

  lemma BeginKeepsRunning(o: DeliveryOptions, s: Clock, id: AttemptId)
    requires o.concurrency > 0 && RunningOk(o, s) && CanTick(o, s, Begin(id)) && s.now <= Deadline(o, s.started)
    ensures RunningOk(o, AfterTick(s, Begin(id)))
  {
  }

  lemma BeginKeepsBatch(o: DeliveryOptions, n: nat, s: Clock, id: AttemptId)
    requires o.concurrency > 0 && BatchOk(o, n, s) && CanTick(o, s, Begin(id))
    ensures BatchOk(o, n, AfterTick(s, Begin(id)))
  {
    assert |s.waiting - {id}| == |s.waiting| - 1;
    DeadlineMonotone(o, s.started, s.started + 1);
  }

  lemma BeginStep(o: DeliveryOptions, n: nat, s: Clock, id: AttemptId)
    requires o.concurrency > 0 && ScheduleOk(o, n, s) && CanTick(o, s, Begin(id))
    ensures ScheduleOk(o, n, AfterTick(s, Begin(id)))
  {
    BeginKeepsRunning(o, s, id);
    BeginKeepsBatch(o, n, s, id);
  }

  lemma CommitStep(o: DeliveryOptions, n: nat, s: Clock, id: AttemptId)
    requires o.concurrency > 0 && ScheduleOk(o, n, s) && CanTick(o, s, CommitResult(id))
    ensures ScheduleOk(o, n, AfterTick(s, CommitResult(id)))
  {
  }

  /** When every send returns within the timeout and all slots are free at the start, any batch taken in any
      order keeps the bounds: each send is over within its waves, each result is committed within the claim. */
  lemma {:induction false} ScheduleBounds(o: DeliveryOptions, batch: set<AttemptId>, states: seq<Clock>, ticks: seq<Tick>, k: nat)
    requires o.concurrency > 0 && IsSchedule(o, batch, states, ticks) && k < |states|
    ensures ScheduleOk(o, |batch|, states[k])
  {
    if k > 0 {
      ScheduleBounds(o, batch, states, ticks, k - 1);
      match ticks[k - 1] {
        case Begin(id) => BeginStep(o, |batch|, states[k - 1], id);
        case End(id) => EndStep(o, |batch|, states[k - 1], id);
        case CommitResult(id) => CommitStep(o, |batch|, states[k - 1], id);
        case Advance(to) => AdvanceStep(o, |batch|, states[k - 1], to);
      }
    }
  }

  /** Every attempt of the batch waits, runs or has returned. */
  ghost predicate Partitioned(batch: set<AttemptId>, s: Clock) {
    batch == s.waiting + s.running.Keys + s.sent.Keys
  }

  lemma {:induction false} BatchIsPartitioned(
      o: DeliveryOptions, batch: set<AttemptId>, states: seq<Clock>, ticks: seq<Tick>, k: nat)
    requires IsSchedule(o, batch, states, ticks) && k < |states|
    ensures Partitioned(batch, states[k])
  {
    if k > 0 {
      BatchIsPartitioned(o, batch, states, ticks, k - 1);
      assert CanTick(o, states[k - 1], ticks[k - 1]) && states[k] == AfterTick(states[k - 1], ticks[k - 1]);
    }
  }

  lemma UnfinishedIsEarly(o: DeliveryOptions, n: nat, s: Clock)
    requires o.concurrency > 0 && ScheduleOk(o, n, s) && (s.waiting != {} || s.running != map[])
    ensures s.now <= BatchEnd(o, n)
  {
    if s.running != map[] {
      assert s.running.Keys != {};
      var id :| id in s.running;
      EndsWithinBatch(o, s.running[id].rank, n);
    } else {
      assert |s.waiting| > 0;
      DeadlineMonotone(o, s.started, n - 1);
    }
  }

  lemma TtlCoversBatch(o: DeliveryOptions, n: nat)
    requires o.concurrency > 0 && n <= o.batchSize
    ensures BatchEnd(o, n) + COMMIT_TIMEOUT <= ClaimTtl(o)
  {
    BatchEndMonotone(o, n, o.batchSize);
    BatchEndIsWaves(o, o.batchSize);
  }

  /** The claim lives for the configured time, or as much longer as the waves of a full batch and one commit need,
      and no longer. */
  lemma ClaimTtlIsLeast(o: DeliveryOptions, t: nat)
    requires o.concurrency > 0
    ensures ClaimTtl(o) <= t <==> o.attemptTtl <= t && BatchEnd(o, o.batchSize) + COMMIT_TIMEOUT <= t
  {
    BatchEndIsWaves(o, o.batchSize);
  }

  /** A claimed batch of at most batchSize attempts: after ceil(batch / concurrency) timeouts every attempt has
      been sent, and once the claim's lifetime is over every one has been committed, none of them later. */
  lemma BatchFinishesInTime(o: DeliveryOptions, batch: set<AttemptId>, states: seq<Clock>, ticks: seq<Tick>, k: nat)
    requires o.concurrency > 0 && |batch| <= o.batchSize
    requires IsSchedule(o, batch, states, ticks) && k < |states|
    ensures var (s, end) := (states[k], Waves(|batch|, o.concurrency) * o.sendTimeout);
      && (s.waiting != {} || s.running != map[] ==> s.now <= end)
      && (s.now > end ==> s.sent.Keys == batch)
      && (s.now > ClaimTtl(o) ==> s.committed.Keys == batch)
      && (forall id | id in s.sent :: s.sent[id] <= end)
      && (forall id | id in s.committed :: s.committed[id] <= ClaimTtl(o))
  {
    var (s, end) := (states[k], Waves(|batch|, o.concurrency) * o.sendTimeout);
    ScheduleBounds(o, batch, states, ticks, k);
    BatchIsPartitioned(o, batch, states, ticks, k);
    TtlCoversBatch(o, |batch|);
    BatchEndIsWaves(o, |batch|);
    if s.waiting != {} || s.running != map[] {
      UnfinishedIsEarly(o, |batch|, s);
    }
    if s.now > end {
      assert s.running.Keys == {};
      forall id | id in s.sent && s.now > ClaimTtl(o) ensures id in s.committed {
        assert s.sent[id] <= end;
      }
    }
  }
}
