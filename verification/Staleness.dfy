/**
 The staleness monitor: a loop that handles ticks, heartbeats and cancellation one at a time,
 and returns at a tick that finds the last heartbeat too old.

 Times are nanoseconds on the monotonic clock.  A heartbeat counts from the moment the loop
 handles it.
 */
module Staleness {
  datatype Signal = Tick | Heartbeat | Cancelled

  datatype Handled = Handled(at: int, signal: Signal)

  datatype Outcome =
    | Stale(at: int, last: int)
    | Expired(at: int)
    | Blocking(last: int)

  /** The last heartbeat handled, or the start. */
  function LastHeartbeat(start: int, events: seq<Handled>): int {
    if events == [] then start
    else if events[|events| - 1].signal.Heartbeat? then events[|events| - 1].at
    else LastHeartbeat(start, events[..|events| - 1])
  }

  /** Does the loop return at event i, having survived the events before it? */
  predicate ReturnsAt(start: int, events: seq<Handled>, timeout: int, i: nat)
    requires i < |events|
  {
    match events[i].signal
    case Tick => events[i].at - LastHeartbeat(start, events[..i]) >= timeout
    case Cancelled => true
    case Heartbeat => false
  }

  predicate Survives(start: int, events: seq<Handled>, timeout: int, n: nat)
    requires n <= |events|
  {
    forall i :: 0 <= i < n ==> !ReturnsAt(start, events, timeout, i)
  }

  /** What the loop does with these events. */
  ghost predicate IsOutcome(start: int, events: seq<Handled>, timeout: int, outcome: Outcome) {
    match outcome
    case Blocking(last) => Survives(start, events, timeout, |events|) && last == LastHeartbeat(start, events)
    case Stale(at, last) =>
      exists i :: 0 <= i < |events| && Survives(start, events, timeout, i) && ReturnsAt(start, events, timeout, i)
                  && events[i] == Handled(at, Tick) && last == LastHeartbeat(start, events[..i])
    case Expired(at) =>
      exists i :: 0 <= i < |events| && Survives(start, events, timeout, i) && events[i] == Handled(at, Cancelled)
  }

  method BlockUntilStale(start: int, events: seq<Handled>, staleTimeout: int) returns (outcome: Outcome)
    ensures IsOutcome(start, events, staleTimeout, outcome)
  {
    var lastHeartbeat := start;
    for i := 0 to |events|
      invariant Survives(start, events, staleTimeout, i)
      invariant lastHeartbeat == LastHeartbeat(start, events[..i])
    {
      assert events[..i + 1][..i] == events[..i];
      match events[i].signal
      case Tick =>
        if events[i].at - lastHeartbeat >= staleTimeout {
          assert events[i] == Handled(events[i].at, Tick);
          return Stale(events[i].at, lastHeartbeat);
        }
      case Cancelled =>
        assert events[i] == Handled(events[i].at, Cancelled);
        return Expired(events[i].at);
      case Heartbeat =>
        lastHeartbeat := events[i].at;
    }
    assert events[..|events|] == events;
    outcome := Blocking(lastHeartbeat);
  }

  /** Handling times do not go back. */
  predicate Ordered(start: int, events: seq<Handled>) {
    && (forall i :: 0 <= i < |events| ==> start <= events[i].at)
    && (forall i, j :: 0 <= i <= j < |events| ==> events[i].at <= events[j].at)
  }

  // ---------- returns only when stale ----------

  /** Whenever the loop returns for staleness, no heartbeat was handled for the whole timeout. */
  lemma StaleMeansSilence(start: int, events: seq<Handled>, timeout: int, at: int, last: int)
    requires Ordered(start, events) && IsOutcome(start, events, timeout, Stale(at, last))
    ensures at - last >= timeout
    ensures exists i :: 0 <= i < |events| && events[i] == Handled(at, Tick)
              && forall j :: 0 <= j < i && events[j].signal.Heartbeat? ==> events[j].at <= last
  {
    var i :| 0 <= i < |events| && Survives(start, events, timeout, i) && ReturnsAt(start, events, timeout, i)
      && events[i] == Handled(at, Tick) && last == LastHeartbeat(start, events[..i]);
    LastIsLatest(start, events[..i]);
    forall j | 0 <= j < i && events[j].signal.Heartbeat?
      ensures events[j].at <= last
    {
      assert events[..i][j] == events[j];
    }
  }

  lemma {:induction false} LastIsLatest(start: int, events: seq<Handled>)
    requires Ordered(start, events)
    ensures start <= LastHeartbeat(start, events)
    ensures events != [] ==> LastHeartbeat(start, events) <= events[|events| - 1].at
    ensures forall j :: 0 <= j < |events| && events[j].signal.Heartbeat? ==>
              events[j].at <= LastHeartbeat(start, events)
    decreases |events|
  {
    if events != [] && !events[|events| - 1].signal.Heartbeat? {
      LastIsLatest(start, events[..|events| - 1]);
    }
  }

  // ---------- never while heartbeats are frequent ----------

  /** Every heartbeat comes less than the timeout after the one before it, or after the start. */
  predicate Frequent(start: int, events: seq<Handled>, timeout: int) {
    forall i :: 0 <= i < |events| && events[i].signal.Heartbeat? ==>
      events[i].at - LastHeartbeat(start, events[..i]) < timeout
  }

  /**
   Up to the last of a train of frequent heartbeats no tick ends the loop, however many there
   are and wherever they fall.
   */
  lemma FrequentHeartbeatsSurvive(start: int, events: seq<Handled>, timeout: int, n: nat)
    requires Ordered(start, events) && Frequent(start, events, timeout)
    requires n < |events| && events[n].signal.Heartbeat?
    requires forall i :: 0 <= i < |events| ==> !events[i].signal.Cancelled?
    ensures Survives(start, events, timeout, n + 1)
  {
    forall i | 0 <= i <= n
      ensures !ReturnsAt(start, events, timeout, i)
    {
      if events[i].signal.Tick? {
        var h := NextHeartbeat(start, events, i, n);
        assert events[h].at - LastHeartbeat(start, events[..h]) < timeout;
        assert events[i].at <= events[h].at;
      }
    }
  }

  /** The first heartbeat after i, and that nothing changes up to it. */
  lemma {:induction false} NextHeartbeat(start: int, events: seq<Handled>, i: nat, n: nat) returns (h: nat)
    requires i <= n < |events| && events[n].signal.Heartbeat?
    ensures i <= h <= n && events[h].signal.Heartbeat?
    ensures LastHeartbeat(start, events[..h]) == LastHeartbeat(start, events[..i])
    decreases n - i
  {
    if events[i].signal.Heartbeat? {
      h := i;
    } else {
      h := NextHeartbeat(start, events, i + 1, n);
      assert events[..i + 1][..i] == events[..i];
    }
  }

  // ---------- soon after the timeout ----------

  /** Ticks only, each at most one period after the one before it. */
  ghost predicate PromptTicks(previous: int, ticks: seq<Handled>, period: int) {
    && (forall i :: 0 <= i < |ticks| ==> ticks[i].signal.Tick?)
    && (ticks != [] ==> ticks[0].at <= previous + period)
    && (forall i, j :: 0 <= i < j < |ticks| && j == i + 1 ==> ticks[j].at <= ticks[i].at + period)
  }

  lemma {:induction false} TicksKeepLast(start: int, ticks: seq<Handled>)
    requires forall i :: 0 <= i < |ticks| ==> ticks[i].signal.Tick?
    ensures LastHeartbeat(start, ticks) == start
    decreases |ticks|
  {
    if ticks != [] {
      TicksKeepLast(start, ticks[..|ticks| - 1]);
    }
  }

  /** The first late tick ends the loop. */
  lemma FirstLateTickEnds(last: int, ticks: seq<Handled>, timeout: int, k: nat)
    requires forall i :: 0 <= i < |ticks| ==> ticks[i].signal.Tick?
    requires k < |ticks| && ticks[k].at >= last + timeout
    requires forall i :: 0 <= i < k ==> ticks[i].at < last + timeout
    ensures IsOutcome(last, ticks, timeout, Stale(ticks[k].at, last))
  {
    forall i | 0 <= i <= k
      ensures LastHeartbeat(last, ticks[..i]) == last
    {
      TicksKeepLast(last, ticks[..i]);
    }
    assert ticks[k] == Handled(ticks[k].at, Tick) && ReturnsAt(last, ticks, timeout, k);
  }

  /**
   After a last heartbeat, with promptly handled ticks that reach past the timeout, the loop
   returns for staleness, and strictly before one more period has passed.
   */
  lemma StaleWithinOnePeriod(
    last: int, previous: int, ticks: seq<Handled>, timeout: int, period: int) returns (at: int)
    requires timeout > 0 && previous <= last
    requires PromptTicks(previous, ticks, period)
    requires ticks != [] && ticks[|ticks| - 1].at >= last + timeout
    ensures IsOutcome(last, ticks, timeout, Stale(at, last))
    ensures last + timeout <= at < last + timeout + period
  {
    var k := FirstLate(last, ticks, timeout, 0);
    FirstLateTickEnds(last, ticks, timeout, k);
    at := ticks[k].at;
    assert k > 0 ==> ticks[k].at <= ticks[k - 1].at + period;
  }

  lemma {:induction false} FirstLate(last: int, ticks: seq<Handled>, timeout: int, from: nat) returns (k: nat)
    requires from < |ticks| && ticks[|ticks| - 1].at >= last + timeout
    requires forall i :: 0 <= i < from ==> ticks[i].at < last + timeout
    ensures from <= k < |ticks| && ticks[k].at >= last + timeout
    ensures forall i :: 0 <= i < k ==> ticks[i].at < last + timeout
    decreases |ticks| - from
  {
    if ticks[from].at >= last + timeout {
      k := from;
    } else {
      k := FirstLate(last, ticks, timeout, from + 1);
    }
  }

  lemma {:induction false} LastAcross(start: int, train: seq<Handled>, rest: seq<Handled>)
    ensures LastHeartbeat(start, train + rest) == LastHeartbeat(LastHeartbeat(start, train), rest)
    decreases |rest|
  {
    if rest == [] {
      assert train + rest == train;
    } else {
      assert (train + rest)[..|train + rest| - 1] == train + rest[..|rest| - 1];
      LastAcross(start, train, rest[..|rest| - 1]);
    }
  }

  /** After a train of events the loop does with each event what a fresh one would. */
  lemma ReturnsAcross(start: int, train: seq<Handled>, rest: seq<Handled>, timeout: int, i: nat)
    requires i < |rest|
    ensures LastHeartbeat(start, (train + rest)[..|train| + i]) == LastHeartbeat(LastHeartbeat(start, train), rest[..i])
    ensures ReturnsAt(start, train + rest, timeout, |train| + i) <==>
            ReturnsAt(LastHeartbeat(start, train), rest, timeout, i)
  {
    assert (train + rest)[..|train| + i] == train + rest[..i];
    LastAcross(start, train, rest[..i]);
  }

  lemma TrainSurvives(start: int, train: seq<Handled>, rest: seq<Handled>, timeout: int)
    requires Survives(start, train, timeout, |train|)
    ensures Survives(start, train + rest, timeout, |train|)
  {
    forall i | 0 <= i < |train|
      ensures !ReturnsAt(start, train + rest, timeout, i)
    {
      assert (train + rest)[..i] == train[..i] && !ReturnsAt(start, train, timeout, i);
    }
  }

  lemma SurvivesAcross(start: int, train: seq<Handled>, rest: seq<Handled>, timeout: int, k: nat)
    requires Survives(start, train, timeout, |train|)
    requires k <= |rest| && Survives(LastHeartbeat(start, train), rest, timeout, k)
    ensures Survives(start, train + rest, timeout, |train| + k)
  {
    TrainSurvives(start, train, rest, timeout);
    forall i | |train| <= i < |train| + k
      ensures !ReturnsAt(start, train + rest, timeout, i)
    {
      ReturnsAcross(start, train, rest, timeout, i - |train|);
    }
  }

  /** A loop that survives a train of events goes on as if started at its last heartbeat. */
  lemma OutcomeAcross(start: int, train: seq<Handled>, rest: seq<Handled>, timeout: int, at: int, last: int)
    requires Survives(start, train, timeout, |train|)
    requires IsOutcome(LastHeartbeat(start, train), rest, timeout, Stale(at, last))
    ensures IsOutcome(start, train + rest, timeout, Stale(at, last))
  {
    var from := LastHeartbeat(start, train);
    var k :| 0 <= k < |rest| && Survives(from, rest, timeout, k) && ReturnsAt(from, rest, timeout, k)
      && rest[k] == Handled(at, Tick) && last == LastHeartbeat(from, rest[..k]);
    SurvivesAcross(start, train, rest, timeout, k);
    ReturnsAcross(start, train, rest, timeout, k);
    assert (train + rest)[|train| + k] == Handled(at, Tick);
  }

  /**
   A session whose heartbeats were frequent and then ceased is given up at least one timeout,
   and strictly less than one timeout and one period, after its last heartbeat.
   */
  lemma SessionGivenUpInTime(
    start: int, train: seq<Handled>, previous: int, ticks: seq<Handled>, timeout: int, period: int)
    returns (at: int)
    requires timeout > 0 && Ordered(start, train) && Frequent(start, train, timeout)
    requires forall i :: 0 <= i < |train| ==> !train[i].signal.Cancelled?
    requires train != [] && train[|train| - 1].signal.Heartbeat?
    requires var last := train[|train| - 1].at;
             && previous <= last && PromptTicks(previous, ticks, period)
             && ticks != [] && ticks[|ticks| - 1].at >= last + timeout
    ensures var last := train[|train| - 1].at;
            && IsOutcome(start, train + ticks, timeout, Stale(at, last))
            && last + timeout <= at < last + timeout + period
  {
    var last := train[|train| - 1].at;
    at := StaleWithinOnePeriod(last, previous, ticks, timeout, period);
    FrequentHeartbeatsSurvive(start, train, timeout, |train| - 1);
    OutcomeAcross(start, train, ticks, timeout, at, last);
  }

  const MINUTE: int := 60_000_000_000
  const STALE_TIMEOUT: int := 3 * MINUTE
  const TICK_PERIOD: int := MINUTE

  /** With the source's constants, a silent session is given up before four minutes have passed. */
  lemma SilentSessionEndsBeforeFourMinutes(last: int, previous: int, ticks: seq<Handled>) returns (at: int)
    requires previous <= last && PromptTicks(previous, ticks, TICK_PERIOD)
    requires ticks != [] && ticks[|ticks| - 1].at >= last + STALE_TIMEOUT
    ensures IsOutcome(last, ticks, STALE_TIMEOUT, Stale(at, last))
    ensures last + 3 * MINUTE <= at < last + 4 * MINUTE
  {
    at := StaleWithinOnePeriod(last, previous, ticks, STALE_TIMEOUT, TICK_PERIOD);
  }
}
