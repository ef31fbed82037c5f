/**
 The durable record of one direct admission and the four store operations that claim, checkpoint and
 release it. Times are seconds; a claim token is a fresh number.
 */
module DirectStore {
  import opened Options

  type Token = nat
  type Channel = nat  // a channel name: only equality matters

  datatype Failure = Failure(attempts: nat, nextAttemptAt: nat, terminal: bool)

  /** `direct` and `hasMessage` tell a direct admission that can be delivered from records of another lane or
      without a payload. */
  datatype Record = Record(
    direct: bool,
    hasMessage: bool,
    channels: seq<Channel>,
    delivered: set<Channel>,
    failures: map<Channel, Failure>,
    completed: bool,
    token: Option<Token>,
    claimedUntil: nat)
  {
    function FailureOf(channel: Channel): Failure {
      if channel in failures then failures[channel] else Failure(0, 0, false)
    }

    predicate Settled(channel: Channel) {
      channel in delivered || FailureOf(channel).terminal
    }

    predicate Due(channel: Channel, now: nat) {
      !Settled(channel) && FailureOf(channel).nextAttemptAt <= now
    }

    predicate AllSettled() {
      forall c | c in channels :: Settled(c)
    }

    /** A record is completed exactly when every channel is settled, and then nobody holds its claim. */
    ghost predicate Valid() {
      && (completed ==> AllSettled() && token == None)
      && (channels != [] && AllSettled() ==> completed)
    }
  }

  const MAX_ATTEMPTS := 10

  function NewRecord(channels: seq<Channel>): Record {
    Record(true, true, channels, {}, map[], false, None, 0)
  }

  function DueChannels(record: Record, now: nat, channels: seq<Channel>): seq<Channel> {
    if channels == [] then []
    else (if record.Due(channels[0], now) then [channels[0]] else []) + DueChannels(record, now, channels[1..])
  }

  /** claimDirectRecord: the channels handed out, None when nothing may be claimed. */
  function Claim(record: Record, token: Token, now: nat, lease: nat): (Record, Option<seq<Channel>>) {
    if !record.direct || !record.hasMessage || record.completed || record.claimedUntil > now then (record, None)
    else
      var due := DueChannels(record, now, record.channels);
      if due == [] then
        (if record.channels != [] && record.AllSettled() then record.(completed := true) else record, None)
      else (record.(token := Some(token), claimedUntil := now + lease), Some(due))
  }

  function Finished(record: Record): Record {
    record.(completed := true, token := None, claimedUntil := 0)
  }

  /** CompleteDirectChannel; a stale token or an unknown channel is refused and changes nothing. */
  function Complete(record: Record, token: Token, channel: Channel): (Record, bool) {
    if record.token != Some(token) || channel !in record.channels then (record, false)
    else
      var r := record.(delivered := record.delivered + {channel});
      (if r.AllSettled() then Finished(r) else r, true)
  }

  function Backoff(attempts: nat): nat
    requires attempts >= 1
  {
    if attempts == 1 then 30 else if attempts > 8 then Backoff(8) else 2 * Backoff(attempts - 1)
  }

  /** FailDirectChannel; the tenth failure and a permanent one are terminal. */
  function Fail(record: Record, token: Token, channel: Channel, permanent: bool, now: nat): (Record, bool) {
    if record.token != Some(token) then (record, false)
    else
      var attempts := record.FailureOf(channel).attempts + 1;
      var terminal := permanent || attempts >= MAX_ATTEMPTS;
      var failure := Failure(attempts, if terminal then 0 else now + Backoff(attempts), terminal);
      var r := record.(failures := record.failures[channel := failure]);
      (if r.channels != [] && r.AllSettled() then Finished(r) else r, true)
  }

  function Release(record: Record, token: Token): Record {
    if record.token == Some(token) then record.(token := None, claimedUntil := 0) else record
  }

  /** The store hands out a subsequence of the record's channels: exactly the due ones, all unfinished. */
  lemma {:induction false} DueChannelsAreUnfinished(record: Record, now: nat, channels: seq<Channel>)
    ensures forall c :: c in DueChannels(record, now, channels) <==> c in channels && record.Due(c, now)
    ensures |DueChannels(record, now, channels)| <= |channels|
    ensures (forall c | c in channels :: record.Due(c, now)) ==> DueChannels(record, now, channels) == channels
  {
    if channels != [] {
      DueChannelsAreUnfinished(record, now, channels[1..]);
      forall c ensures c in DueChannels(record, now, channels) <==> c in channels && record.Due(c, now) {
        assert c in channels <==> c == channels[0] || c in channels[1..];
      }
    }
  }

  /** A claim is granted exactly when the record is a direct one with a message, open, unclaimed and has a due
      channel. */
  lemma ClaimGranted(record: Record, token: Token, now: nat, lease: nat)
    requires record.Valid()
    ensures Claim(record, token, now, lease).0.Valid()
    ensures Claim(record, token, now, lease).1.Some? <==>
      (record.direct && record.hasMessage && !record.completed && record.claimedUntil <= now && exists c :: c in record.channels && record.Due(c, now))
    ensures Claim(record, token, now, lease).1 == None ==> Claim(record, token, now, lease).0 == record
    ensures Claim(record, token, now, lease).0.delivered == record.delivered
    ensures Claim(record, token, now, lease).1.Some? ==>
      (Claim(record, token, now, lease).0 == record.(token := Some(token), claimedUntil := now + lease))
    ensures Claim(record, token, now, lease).1.Some? ==>
      (forall c :: c in Claim(record, token, now, lease).1.value <==> c in record.channels && record.Due(c, now))
  {
    DueChannelsAreUnfinished(record, now, record.channels);
    var due := DueChannels(record, now, record.channels);
    if due != [] {
      assert due[0] in due;
    }
  }

  lemma CompleteKeepsValid(record: Record, token: Token, channel: Channel)
    requires record.Valid()
    ensures Complete(record, token, channel).0.Valid()
    ensures Complete(record, token, channel).0.delivered ==
      record.delivered + (if Complete(record, token, channel).1 then {channel} else {})
    ensures Complete(record, token, channel).1 <==> record.token == Some(token) && channel in record.channels
    ensures KeepsTheRest(record, Complete(record, token, channel).0)
    ensures Complete(record, token, channel).0.failures == record.failures
  {
  }

  /** Only deliveries and failures may have changed, and the claim goes only when the record is closed. */
  predicate KeepsTheRest(before: Record, after: Record) {
    && after.direct == before.direct && after.hasMessage == before.hasMessage && after.channels == before.channels
    && (after.completed == before.completed ==> after.token == before.token && after.claimedUntil == before.claimedUntil)
    && (before.completed ==> after.completed)
  }

  /** A failure counts one more attempt of its channel, for good exactly if it is permanent or the tenth; otherwise
      the channel is due again exactly when the backoff is over. No other channel is touched. */
  lemma FailureIsRecorded(record: Record, token: Token, channel: Channel, permanent: bool, now: nat, t: nat)
    requires record.Valid()
    ensures var (r, ok) := Fail(record, token, channel, permanent, now);
      && (ok <==> record.token == Some(token))
      && KeepsTheRest(record, r)
      && (forall c | c != channel || !ok :: r.FailureOf(c) == record.FailureOf(c))
      && (ok ==>
            var attempts := record.FailureOf(channel).attempts + 1;
            && r.FailureOf(channel).attempts == attempts
            && (r.FailureOf(channel).terminal <==> permanent || attempts >= 10)
            && (!r.Settled(channel) ==> (r.Due(channel, t) <==> now + Backoff(attempts) <= t)))
  {
  }

  lemma FailKeepsValid(record: Record, token: Token, channel: Channel, permanent: bool, now: nat)
    requires record.Valid()
    ensures Fail(record, token, channel, permanent, now).0.Valid()
    ensures Fail(record, token, channel, permanent, now).0.delivered == record.delivered
    ensures Fail(record, token, channel, permanent, now).1 && permanent ==>
      Fail(record, token, channel, permanent, now).0.Settled(channel)
  {
  }

  lemma ReleaseKeepsValid(record: Record, token: Token)
    requires record.Valid()
    ensures Release(record, token).Valid()
    ensures Release(record, token).delivered == record.delivered
    ensures Release(record, token).token != Some(token)
    ensures record.token == Some(token) ==> Release(record, token) == record.(token := None, claimedUntil := 0)
  {
  }

  /** A refused call (the claim was taken over, finished or released) leaves the record untouched. */
  lemma StaleTokenIsHarmless(record: Record, token: Token, channel: Channel, permanent: bool, now: nat)
    requires record.token != Some(token)
    ensures Complete(record, token, channel) == (record, false)
    ensures Fail(record, token, channel, permanent, now) == (record, false)
    ensures Release(record, token) == record
  {
  }

  lemma {:induction false} BackoffIsCapped(attempts: nat)
    requires attempts >= 1
    ensures 30 <= Backoff(attempts) <= 3840
    ensures attempts < 8 ==> Backoff(attempts + 1) == 2 * Backoff(attempts)
    ensures attempts >= 8 ==> Backoff(attempts) == 3840
    decreases attempts
  {
    assert Backoff(2) == 60 && Backoff(3) == 120 && Backoff(4) == 240;
    assert Backoff(5) == 480 && Backoff(6) == 960 && Backoff(7) == 1920 && Backoff(8) == 3840;
    if attempts > 8 {
      assert Backoff(attempts) == Backoff(8);
    }
  }
}
