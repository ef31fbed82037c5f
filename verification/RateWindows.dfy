/**
 Fixed one-minute windows: what any limiter that counts per window lets through within a minute that may
 start anywhere.
 */
module RateWindows {
  import opened Options

  /** Nanoseconds on a clock that never runs backwards. */
  type Time = int

  const Minute: Time := 60_000_000_000

  datatype Window = Window(start: Option<Time>, count: nat)

  const Unstarted := Window(None, 0)

  /** The AI limits reset at the full minute, the rate-limit counters only after it. */
  predicate Expired(start: Time, now: Time, afterOnly: bool) {
    if afterOnly then now > start + Minute else now >= start + Minute
  }

  function Rolled(w: Window, now: Time, afterOnly: bool): Window {
    if w.start.None? || Expired(w.start.value, now, afterOnly) then Window(Some(now), 0) else w
  }

  /** One admission: when it happened and the start of the window it was counted in. */
  datatype Admission = Admission(time: Time, window: Time)

  function InWindow(log: seq<Admission>, start: Time): nat {
    if log == [] then 0
    else InWindow(log[..|log| - 1], start) + (if log[|log| - 1].window == start then 1 else 0)
  }

  /** The admissions in the closed minute from `from`. */
  function InMinute(log: seq<Admission>, from: Time): nat {
    if log == [] then 0
    else InMinute(log[..|log| - 1], from) + (if from <= log[|log| - 1].time <= from + Minute then 1 else 0)
  }

  lemma InMinuteOfOneMore(log: seq<Admission>, more: seq<Admission>, from: Time)
    requires |more| <= 1
    ensures InMinute(log + more, from) ==
      InMinute(log, from) + (if more != [] && from <= more[0].time <= from + Minute then 1 else 0)
  {
    if more != [] {
      assert (log + more)[..|log|] == log;
    } else {
      assert log + more == log;
    }
  }

  predicate Follows(a: Admission, start: Time) {
    start == a.window || (start >= a.window + Minute && start > a.time)
  }

  ghost predicate LogOk(log: seq<Admission>, limit: int) {
    && (forall i | 0 <= i < |log| :: log[i].window <= log[i].time && InWindow(log, log[i].window) <= limit)
    && (forall i, j | 0 <= i < j < |log| :: Follows(log[i], log[j].window) && log[i].window <= log[j].window)
  }

  /** The log is what a window with this limit admitted up to now. The counter may count others as well. */
  ghost predicate Fits(log: seq<Admission>, w: Window, limit: int, now: Time, afterOnly: bool) {
    && LogOk(log, limit)
    && (w.start.None? ==> log == [])
    && (w.start.Some? ==>
          && w.start.value <= now
          && InWindow(log, w.start.value) <= w.count
          && (forall i | 0 <= i < |log| :: log[i].time <= now && log[i].window <= w.start.value)
          && (forall i | 0 <= i < |log| :: Follows(log[i], w.start.value))
          && (forall i | 0 <= i < |log| && log[i].window == w.start.value ::
                !Expired(w.start.value, log[i].time, afterOnly)))
  }

  lemma {:induction false} NoneInNewWindow(log: seq<Admission>, start: Time)
    requires forall i | 0 <= i < |log| :: log[i].window != start
    ensures InWindow(log, start) == 0
  {
    if log != [] {
      NoneInNewWindow(log[..|log| - 1], start);
    }
  }

  lemma LaterFits(log: seq<Admission>, w: Window, limit: int, before: Time, now: Time, afterOnly: bool)
    requires Fits(log, w, limit, before, afterOnly) && before <= now
    ensures Fits(log, w, limit, now, afterOnly)
  {
  }

  lemma RolledFits(log: seq<Admission>, w: Window, limit: int, now: Time, afterOnly: bool)
    requires Fits(log, w, limit, now, afterOnly)
    ensures Fits(log, Rolled(w, now, afterOnly), limit, now, afterOnly)
  {
    if w.start.Some? && Expired(w.start.value, now, afterOnly) {
      forall i | 0 <= i < |log| ensures log[i].window < now && Follows(log[i], now) && log[i].time < now {
        assert Follows(log[i], w.start.value);
      }
      NoneInNewWindow(log, now);
    }
  }

  /** Counting one more caller that the log does not follow. */
  lemma CountedFits(log: seq<Admission>, w: Window, limit: int, now: Time, afterOnly: bool)
    requires Fits(log, w, limit, now, afterOnly) && w.start.Some?
    ensures Fits(log, w.(count := w.count + 1), limit, now, afterOnly)
  {
  }

  lemma AdmittedFits(log: seq<Admission>, w: Window, limit: int, now: Time, afterOnly: bool)
    requires Fits(log, w, limit, now, afterOnly)
    requires w.start.Some? && !Expired(w.start.value, now, afterOnly) && w.count < limit
    ensures Fits(log + [Admission(now, w.start.value)], w.(count := w.count + 1), limit, now, afterOnly)
  {
    var more := log + [Admission(now, w.start.value)];
    assert more[..|log|] == log;
    forall i | 0 <= i < |log| ensures InWindow(more, log[i].window) <= limit {
      assert InWindow(log, log[i].window) <= limit;
    }
    assert InWindow(more, w.start.value) <= w.count + 1;
  }

  predicate Within(a: Admission, from: Time) {
    from <= a.time <= from + Minute
  }

  lemma {:induction false} CountedInTwo(log: seq<Admission>, from: Time, u: Time, v: Time)
    requires forall i | 0 <= i < |log| && Within(log[i], from) :: log[i].window == u || log[i].window == v
    ensures InMinute(log, from) <= InWindow(log, u) + InWindow(log, v)
  {
    if log != [] {
      CountedInTwo(log[..|log| - 1], from, u, v);
    }
  }

  lemma {:induction false} CountedInOne(log: seq<Admission>, from: Time, u: Time)
    requires forall i | 0 <= i < |log| && Within(log[i], from) :: log[i].window == u
    ensures InMinute(log, from) <= InWindow(log, u)
  {
    if log != [] {
      CountedInOne(log[..|log| - 1], from, u);
    }
  }

  lemma {:induction false} NoneWithin(log: seq<Admission>, from: Time)
    requires forall i | 0 <= i < |log| :: !Within(log[i], from)
    ensures InMinute(log, from) == 0
  {
    if log != [] {
      NoneWithin(log[..|log| - 1], from);
    }
  }

  /** Three windows never meet in one minute. */
  lemma TwoWindows(log: seq<Admission>, limit: int, from: Time, i: nat, j: nat, k: nat)
    requires LogOk(log, limit) && i < j < k < |log| && Within(log[i], from) && Within(log[k], from)
    ensures log[j].window == log[i].window || log[k].window == log[j].window
  {
    assert Follows(log[i], log[j].window) && Follows(log[j], log[k].window);
  }

  /** Any minute, wherever it starts, holds at most twice the limit. */
  lemma AnyMinute(log: seq<Admission>, limit: int, from: Time)
    requires LogOk(log, limit)
    ensures InMinute(log, from) <= 2 * (if limit > 0 then limit else 0)
  {
    if i :| 0 <= i < |log| && Within(log[i], from) {
      var first := FirstWithin(log, from, i);
      var u := log[first].window;
      if j :| first < j < |log| && Within(log[j], from) && log[j].window != u {
        forall k | 0 <= k < |log| && Within(log[k], from) ensures log[k].window == u || log[k].window == log[j].window {
          if first < k < j {
            TwoWindows(log, limit, from, first, k, j);
          } else if j < k {
            TwoWindows(log, limit, from, first, j, k);
          }
        }
        CountedInTwo(log, from, u, log[j].window);
      } else {
        CountedInOne(log, from, u);
      }
      assert InWindow(log, log[first].window) <= limit;
    } else {
      NoneWithin(log, from);
    }
  }

  lemma {:induction false} FirstWithin(log: seq<Admission>, from: Time, i: nat) returns (first: nat)
    requires i < |log| && Within(log[i], from)
    ensures first <= i && Within(log[first], from) && forall k | 0 <= k < first :: !Within(log[k], from)
  {
    if k :| 0 <= k < i && Within(log[k], from) {
      first := FirstWithin(log, from, k);
    } else {
      first := i;
    }
  }

  // ---- the other direction: the counter overstates nothing ----

  ghost predicate CountsExactly(log: seq<Admission>, w: Window) {
    w.count == (if w.start.None? then 0 else InWindow(log, w.start.value))
  }

  lemma {:induction false} WindowWithinMinute(log: seq<Admission>, start: Time, from: Time)
    requires forall i | 0 <= i < |log| && log[i].window == start :: Within(log[i], from)
    ensures InWindow(log, start) <= InMinute(log, from)
  {
    if log != [] {
      WindowWithinMinute(log[..|log| - 1], start, from);
    }
  }

  /** Each admission comes in its window, none later than now or than the window there is. */
  ghost predicate Placed(log: seq<Admission>, w: Window, now: Time) {
    && (w.start.None? ==> log == [])
    && (w.start.Some? ==>
          w.start.value <= now &&
          forall i | 0 <= i < |log| :: log[i].window <= log[i].time <= now && log[i].window <= w.start.value)
  }

  /** A full window that has not run out shows a full minute of admissions behind it. */
  lemma FullWindowIsFullMinute(log: seq<Admission>, w: Window, limit: int, now: Time, afterOnly: bool)
    requires Placed(log, w, now) && CountsExactly(log, w)
    requires Rolled(w, now, afterOnly).count >= limit
    ensures InMinute(log, now - Minute) >= limit
  {
    if w.start.Some? && !Expired(w.start.value, now, afterOnly) {
      WindowWithinMinute(log, w.start.value, now - Minute);
    }
  }
}
