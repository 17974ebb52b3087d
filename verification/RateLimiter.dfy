/**
 The rolling-window limiter of broker requests (api_rate_limiter.py). The clock only
 moves forward, by any amount between two readings, and a sleep lasts at least as long
 as asked. Calls are serialized by the limiter's lock.
 */
module RateLimiter {
  import opened Wrappers

  class Clock {
    var now: real

    constructor ()
    {
      now := 0.0;
    }

    method Read() returns (t: real)
      modifies this
      ensures t == now >= old(now)
    {
      var passed: real := *;
      if passed > 0.0 {
        now := now + passed;
      }
      t := now;
    }

    method Sleep(delay: real)
      modifies this
      ensures now >= old(now) + delay
    {
      var over: real := *;
      now := now + delay + if over > 0.0 then over else 0.0;
    }
  }

  /** Times at which requests were let through, oldest first. */
  ghost predicate Ordered(grants: seq<real>) {
    forall i, j :: 0 <= i <= j < |grants| ==> grants[i] <= grants[j]
  }

  /** The (i + max)-th request comes at least one period after the i-th. */
  ghost predicate Spaced(grants: seq<real>, max: nat, period: real) {
    forall i, j :: 0 <= i && j == i + max && j < |grants| ==> grants[j] - grants[i] >= period
  }

  lemma MaxLaterIsOnePeriodLater(grants: seq<real>, max: nat, period: real, i: nat, j: nat)
    requires Ordered(grants) && Spaced(grants, max, period) && i + max <= j < |grants|
    ensures grants[j] - grants[i] >= period
  {
    assert grants[i + max] <= grants[j];
  }

  /** Spacing is the rolling-window limit: no window of one period holds more than `max`. */
  lemma WindowHoldsAtMostMax(grants: seq<real>, max: nat, period: real, i: nat, j: nat)
    requires max > 0 && Ordered(grants) && i <= j < |grants|
    requires Spaced(grants, max, period) && grants[j] - grants[i] < period
    ensures j - i + 1 <= max
  {
    if i + max <= j {
      MaxLaterIsOnePeriodLater(grants, max, period, i, j);
    }
  }

  /** The deque is the tail of all grants; what left it is at least one period old. */
  ghost predicate Consistent(calls: seq<real>, grants: seq<real>, max: nat, period: real, now: real) {
    && |calls| <= max && |calls| <= |grants| && calls == grants[|grants| - |calls|..]
    && Ordered(grants) && Spaced(grants, max, period)
    && (forall i :: 0 <= i < |grants| ==> grants[i] <= now)
    && (forall i :: 0 <= i < |grants| - |calls| ==> now - grants[i] >= period)
  }

  lemma TimePasses(calls: seq<real>, grants: seq<real>, max: nat, period: real, now: real, later: real)
    requires Consistent(calls, grants, max, period, now) && now <= later
    ensures Consistent(calls, grants, max, period, later)
    ensures forall i :: 0 <= i < |calls| ==> calls[i] <= now
  {
  }

  lemma OldestExpires(calls: seq<real>, grants: seq<real>, max: nat, period: real, now: real)
    requires Consistent(calls, grants, max, period, now) && calls != [] && now - calls[0] >= period
    ensures Consistent(calls[1..], grants, max, period, now)
  {
  }

  /** A grant now comes one period after the request `max` before it. */
  lemma GrantKeepsSpacing(calls: seq<real>, grants: seq<real>, max: nat, period: real, now: real)
    requires Consistent(calls, grants, max, period, now) && |calls| < max
    ensures Consistent(calls + [now], grants + [now], max, period, now)
  {
    var all := grants + [now];
    assert Ordered(all);
    assert calls + [now] == all[|all| - |calls| - 1..];
    forall i, j | 0 <= i && j == i + max && j < |all| ensures all[j] - all[i] >= period {
      if j == |grants| {
        assert i < |grants| - |calls|;
      }
    }
  }

  class ApiRateLimiter {
    const maxCalls: nat
    const period: real
    const clock: Clock
    var calls: seq<real>
    ghost var grants: seq<real>

    constructor (maxCalls: nat, period: real, clock: Clock)
      requires maxCalls > 0 && period > 0.0
      ensures Valid() && grants == [] && this.clock == clock && this.maxCalls == maxCalls && this.period == period
    {
      this.maxCalls, this.period, this.clock, calls, grants := maxCalls, period, clock, [], [];
    }

    ghost predicate Valid()
      reads this, clock
    {
      maxCalls > 0 && period > 0.0 && Consistent(calls, grants, maxCalls, period, clock.now)
    }

    /** Drops the calls that have left the window. */
    method Expire(now: real)
      requires Valid() && now == clock.now
      modifies this`calls
      ensures Valid() && |calls| <= old(|calls|)
      ensures calls != [] ==> now - calls[0] < period
      ensures calls == old(calls) || |calls| < old(|calls|)
    {
      hide Consistent;
      while calls != [] && now - calls[0] >= period
        invariant Valid() && (calls == old(calls) || |calls| < old(|calls|))
        decreases |calls|
      {
        OldestExpires(calls, grants, maxCalls, period, now);
        calls := calls[1..];
      }
    }

    /**
     Lets one request through: at once, or after one sleep of at most one period. The
     request is granted at the clock's present time and joins the others without
     breaking the limit.
     */
    method Wait() returns (totalWait: real, sleeps: nat)
      requires Valid()
      modifies this`calls, this`grants, clock
      ensures Valid() && grants == old(grants) + [clock.now]
      ensures sleeps <= 1 && 0.0 <= totalWait <= period && (sleeps == 0 ==> totalWait == 0.0)
      ensures clock.now >= old(clock.now) + totalWait
    {
      totalWait, sleeps := 0.0, 0;
      while true
        invariant Valid() && grants == old(grants) && sleeps <= 1
        invariant clock.now >= old(clock.now) + totalWait && 0.0 <= totalWait <= period
        invariant sleeps == 0 ==> totalWait == 0.0
        invariant sleeps == 1 ==> calls != [] && clock.now - calls[0] >= period && |calls| <= maxCalls
        decreases 1 - sleeps
      {
        ghost var before := clock.now;
        var now := clock.Read();
        TimePasses(calls, grants, maxCalls, period, before, now);
        hide Consistent;
        Expire(now);
        if |calls| < maxCalls {
          GrantKeepsSpacing(calls, grants, maxCalls, period, now);
          calls := calls + [now];
          grants := grants + [now];
          return;
        }
        var delay := period - (now - calls[0]);
        // So the retry that the code keeps for a zero delay is never taken.
        assert delay > 0.0;
        clock.Sleep(delay);
        TimePasses(calls, grants, maxCalls, period, now, clock.now);
        totalWait := totalWait + delay;
        sleeps := sleeps + 1;
      }
    }
  }

  /** The constructor's argument checks. */
  method NewLimiter(maxCalls: int, period: real, clock: Clock) returns (r: Result<ApiRateLimiter, string>)
    ensures r.Ok? <==> maxCalls > 0 && period > 0.0
    ensures r.Ok? ==> fresh(r.value) && r.value.Valid() && r.value.grants == [] && r.value.maxCalls == maxCalls
                      && r.value.period == period && r.value.clock == clock
  {
    if maxCalls <= 0 {
      return Err("max_calls must be positive");
    }
    if period <= 0.0 {
      return Err("period_seconds must be positive");
    }
    var limiter := new ApiRateLimiter(maxCalls, period, clock);
    r := Ok(limiter);
  }
}
