/** The fixed-window attempt limiter. */
module Limiter {
  import opened Wrappers
  import opened Clocks

  datatype Key =
    | LoginFailures(login: string, ip: string)
    | PasswordFailures(user: nat)
    | LoginIp(ip: string)
    | RegisterIp(ip: string)

  datatype Counter = Counter(count: nat, endsAt: Time)

  /** The counter a call at `t` sees: an ended window is forgotten. */
  function Live(c: Option<Counter>, t: Time): Option<Counter> {
    if c.Some? && c.value.endsAt <= t then None else c
  }

  /** The live window of a key holds as many as the limit. */
  predicate Full(c: Option<Counter>, t: Time, limit: nat) {
    Live(c, t).Some? && Live(c, t).value.count >= limit
  }

  function Incremented(c: Option<Counter>, t: Time, window: nat): Counter {
    match Live(c, t)
    case None => Counter(1, t + window * SECOND)
    case Some(x) => Counter(x.count + 1, x.endsAt)
  }

  /** Whole seconds until the window ends, at least one. */
  function Wait(c: Counter, t: Time): nat {
    var seconds := -((t - c.endsAt) / SECOND);
    if seconds < 1 then 1 else seconds
  }

  // ---------------------------------------------------------------- how long a caller waits

  lemma RoundedUp(d: int)
    ensures var up := -((-d) / SECOND); d <= up * SECOND < d + SECOND
  {
  }

  /** A wait is at least a second, reaches the end of the window, and no shorter whole wait above one would do. */
  lemma WaitIsTight(c: Counter, t: Time, window: nat)
    ensures 1 <= Wait(c, t) && c.endsAt <= t + Wait(c, t) * SECOND
    ensures Wait(c, t) > 1 ==> t + (Wait(c, t) - 1) * SECOND < c.endsAt
    ensures c.endsAt <= t + window * SECOND && window > 0 ==> Wait(c, t) <= window
  {
    RoundedUp(c.endsAt - t);
  }

  /** After the wait the key is open again, whatever was counted before. */
  lemma OpenAfterWaiting(c: Counter, t: Time, later: Time, limit: nat, window: nat)
    requires window > 0 && limit > 0 && later >= t + Wait(c, t) * SECOND
    ensures Live(Some(c), later) == None
    ensures Incremented(Some(c), later, window).count <= limit
  {
    WaitIsTight(c, t, window);
  }

  /** The counter of a key after failures at these times. */
  function AfterFailures(times: seq<Time>, window: nat): Option<Counter> {
    if times == [] then None
    else Some(Incremented(AfterFailures(times[..|times| - 1], window), times[|times| - 1], window))
  }

  /** A window opens with the first failure, and counts all that come before it ends. */
  lemma {:induction false} FailuresCounted(times: seq<Time>, window: nat)
    requires InOrder(times) && times != [] && times[|times| - 1] < times[0] + window * SECOND
    ensures AfterFailures(times, window) == Some(Counter(|times|, times[0] + window * SECOND))
  {
    var n := |times| - 1;
    if n > 0 {
      assert times[n - 1] <= times[n];
      FailuresCounted(times[..n], window);
    }
  }

  /** A key is blocked exactly from the failure that reaches the limit to the end of the window. */
  lemma BlockedFromTheLimitOn(times: seq<Time>, t: Time, limit: nat, window: nat)
    requires InOrder(times) && times != [] && times[|times| - 1] < times[0] + window * SECOND
    ensures Full(AfterFailures(times, window), t, limit) <==> |times| >= limit && t < times[0] + window * SECOND
    ensures !Full(AfterFailures([], window), t, limit)
  {
    FailuresCounted(times, window);
  }

  // ---------------------------------------------------------------- how much gets through

  predicate InOrder(times: seq<Time>) {
    forall i, j :: 0 <= i < j < |times| ==> times[i] <= times[j]
  }

  /** Of hits at these times, how many are admitted at a time in `[from, to)`. */
  function AdmittedIn(c: Option<Counter>, times: seq<Time>, limit: nat, window: nat, from: Time, to: Time): nat
    decreases |times|
  {
    if times == [] then 0
    else
      var next := Incremented(c, times[0], window);
      (if next.count <= limit && from <= times[0] < to then 1 else 0)
        + AdmittedIn(Some(next), times[1..], limit, window, from, to)
  }

  lemma {:induction false} NoneAdmittedLater(
    c: Option<Counter>, times: seq<Time>, limit: nat, window: nat, from: Time, to: Time)
    requires InOrder(times) && (times == [] || times[0] >= to)
    ensures AdmittedIn(c, times, limit, window, from, to) == 0
    decreases |times|
  {
    if times != [] {
      NoneAdmittedLater(Some(Incremented(c, times[0], window)), times[1..], limit, window, from, to);
    }
  }

  function Room(c: Counter, limit: nat): nat {
    if c.count < limit then limit - c.count else 0
  }

  /** Most that can still be admitted in `[from, from + window)`. */
  function MostAdmitted(c: Option<Counter>, limit: nat, window: nat, from: Time): nat
    requires limit > 0
  {
    if c.None? || c.value.endsAt < from then 2 * limit - 1
    else if c.value.endsAt < from + window * SECOND then Room(c.value, limit) + limit
    else Room(c.value, limit)
  }

  lemma {:induction false} AdmittedAtMost(c: Option<Counter>, times: seq<Time>, limit: nat, window: nat, from: Time)
    requires InOrder(times) && window > 0 && limit > 0 && (c.Some? ==> c.value.count > 0)
    ensures AdmittedIn(c, times, limit, window, from, from + window * SECOND) <= MostAdmitted(c, limit, window, from)
    decreases |times|
  {
    if times != [] {
      var next := Incremented(c, times[0], window);
      if times[0] >= from + window * SECOND {
        NoneAdmittedLater(c, times, limit, window, from, from + window * SECOND);
      } else {
        AdmittedAtMost(Some(next), times[1..], limit, window, from);
      }
    }
  }

  /** In any half-open interval of one window length fewer than twice the limit get through. */
  lemma FewerThanTwiceTheLimit(c: Option<Counter>, times: seq<Time>, limit: nat, window: nat, from: Time)
    requires InOrder(times) && window > 0 && limit > 0 && (c.Some? ==> c.value.count > 0)
    ensures AdmittedIn(c, times, limit, window, from, from + window * SECOND) < 2 * limit
  {
    AdmittedAtMost(c, times, limit, window, from);
  }

  function Burst(t: Time, n: nat): (times: seq<Time>) {
    seq(n, _ => t)
  }

  lemma {:induction false} BurstAdmitted(
    c: Counter, t: Time, n: nat, rest: seq<Time>, limit: nat, window: nat, from: Time, to: Time)
    requires t < c.endsAt && c.count + n <= limit && from <= t < to
    ensures AdmittedIn(Some(c), Burst(t, n) + rest, limit, window, from, to)
      == n + AdmittedIn(Some(Counter(c.count + n, c.endsAt)), rest, limit, window, from, to)
    decreases n
  {
    if n == 0 {
      assert Burst(t, n) + rest == rest;
    } else {
      assert (Burst(t, n) + rest)[1..] == Burst(t, n - 1) + rest;
      BurstAdmitted(Counter(c.count + 1, c.endsAt), t, n - 1, rest, limit, window, from, to);
    }
  }

  /** The bound is tight: a hit opens a window, the others come at its very end and at the start of the next one. */
  lemma TwiceTheLimitLessOneHappens(limit: nat, window: nat)
    requires window > 0 && limit > 0
    ensures var end := window * SECOND;
      AdmittedIn(None, [0] + Burst(end - 1, limit - 1) + Burst(end, limit), limit, window, 1, 1 + end) == 2 * limit - 1
  {
    var end := window * SECOND;
    var late, next := Burst(end - 1, limit - 1), Burst(end, limit);
    assert ([0] + late + next)[1..] == late + next;
    var first := Counter(1, end);
    BurstAdmitted(first, end - 1, limit - 1, next, limit, window, 1, 1 + end);
    assert next[1..] == Burst(end, limit - 1) + [];
    assert Incremented(Some(Counter(limit, end)), end, window) == Counter(1, end + end);
    BurstAdmitted(Counter(1, end + end), end, limit - 1, [], limit, window, 1, 1 + end);
  }

  /** Of hits at these times, how many are admitted into the window that ends at `end`. */
  function AdmittedInto(c: Option<Counter>, times: seq<Time>, limit: nat, window: nat, end: Time): nat
    decreases |times|
  {
    if times == [] then 0
    else
      var next := Incremented(c, times[0], window);
      (if next.count <= limit && next.endsAt == end then 1 else 0)
        + AdmittedInto(Some(next), times[1..], limit, window, end)
  }

  lemma {:induction false} AtMostTheLimitPerWindow(
    c: Option<Counter>, times: seq<Time>, limit: nat, window: nat, end: Time)
    requires InOrder(times) && window > 0
    ensures AdmittedInto(c, times, limit, window, end) <= limit
    ensures c.Some? && c.value.endsAt == end ==> AdmittedInto(c, times, limit, window, end) <= Room(c.value, limit)
    ensures c.Some? && c.value.endsAt > end ==> AdmittedInto(c, times, limit, window, end) == 0
    decreases |times|
  {
    if times != [] {
      AtMostTheLimitPerWindow(Some(Incremented(c, times[0], window)), times[1..], limit, window, end);
    }
  }

  // ---------------------------------------------------------------- the limiter

  /** `InMemoryAttemptLimiter` */
  class AttemptLimiter {
    const clock: Clock
    var counters: map<Key, Counter>

    constructor (clock: Clock)
      ensures this.clock == clock && counters == map[]
    {
      this.clock := clock;
      counters := map[];
    }

    ghost function Seen(key: Key): Option<Counter> reads this {
      if key in counters then Some(counters[key]) else None
    }

    /** `at` is the reading that decided in which window the call falls. */
    method Expire(key: Key) returns (ghost at: Time)
      modifies `counters, clock
      ensures old(clock.now) <= at <= clock.now
      ensures counters == (if Live(old(Seen(key)), at).Some? then old(counters) else old(counters) - {key})
      ensures Seen(key) == Live(old(Seen(key)), at)
    {
      at := clock.now;
      if key in counters {
        var t := clock.Read();
        at := t;
        if counters[key].endsAt <= t {
          counters := counters - {key};
        }
      }
    }

    method Increment(key: Key, window: nat) returns (count: nat, ghost at: Time)
      requires window > 0
      modifies `counters, clock
      ensures old(clock.now) <= at <= clock.now
      ensures counters == old(counters)[key := Incremented(old(Seen(key)), at, window)]
      ensures count == counters[key].count
    {
      at := Expire(key);
      var t := clock.Read();
      if key !in counters {
        at := t;
      }
      var counter := if key in counters then counters[key] else Counter(0, t + window * SECOND);
      counters := counters[key := Counter(counter.count + 1, counter.endsAt)];
      count := counter.count + 1;
    }

    method RetryAfter(key: Key) returns (wait: nat)
      requires key in counters
      modifies clock
      ensures old(clock.now) <= clock.now && wait == Wait(counters[key], clock.now)
    {
      var t := clock.Read();
      var remaining := counters[key].endsAt - t;
      var seconds := -((-remaining) / SECOND);
      wait := if seconds < 1 then 1 else seconds;
    }

    /** Admitted, or told to wait until the window is over: at least a second, and no longer than a window. */
    method Hit(key: Key, limit: nat, window: nat) returns (wait: Option<nat>, ghost at: Time)
      requires window > 0
      modifies `counters, clock
      ensures old(clock.now) <= at <= clock.now
      ensures counters == old(counters)[key := Incremented(old(Seen(key)), at, window)]
      ensures wait.None? <==> counters[key].count <= limit
      ensures wait.Some? ==> 1 <= wait.value && counters[key].endsAt <= clock.now + wait.value * SECOND
      // The window of a key does not change from call to call, so an open window never ends later than this.
      ensures wait.Some? && counters[key].endsAt <= at + window * SECOND ==> wait.value <= window
    {
      var count;
      count, at := Increment(key, window);
      wait := None;
      if count > limit {
        var seconds := RetryAfter(key);
        WaitIsTight(counters[key], clock.now, window);
        wait := Some(seconds);
      }
    }

    method Blocked(key: Key, limit: nat) returns (wait: Option<nat>, ghost at: Time)
      modifies `counters, clock
      ensures old(clock.now) <= at <= clock.now
      ensures counters == (if Live(old(Seen(key)), at).Some? then old(counters) else old(counters) - {key})
      ensures Seen(key) == Live(old(Seen(key)), at)
      ensures wait.Some? <==> Full(old(Seen(key)), at, limit)
      ensures wait.Some? ==> wait.value == Wait(Seen(key).value, clock.now)
    {
      at := Expire(key);
      wait := None;
      if key in counters && counters[key].count >= limit {
        var seconds := RetryAfter(key);
        wait := Some(seconds);
      }
    }

    method RecordFailure(key: Key, window: nat) returns (ghost at: Time)
      requires window > 0
      modifies `counters, clock
      ensures old(clock.now) <= at <= clock.now
      ensures counters == old(counters)[key := Incremented(old(Seen(key)), at, window)]
    {
      var count;
      count, at := Increment(key, window);
    }

    method Reset(key: Key)
      modifies `counters
      ensures counters == old(counters) - {key}
    {
      counters := counters - {key};
    }
  }
}
