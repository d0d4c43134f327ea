/** The sliding-window limiter of the news fetcher (data/news_fetcher.py, _RateLimiter). */
module RateLimiter {
  import opened Common

  /** Any `max` + 1 consecutive grants span more than the window. */
  ghost predicate Spaced(grants: seq<real>, max: nat, window: real) {
    forall i :: 0 <= i && i + max < |grants| ==> grants[i + max] - grants[i] > window
  }

  predicate Rising(times: seq<real>) {
    forall i, j :: 0 <= i <= j < |times| ==> times[i] <= times[j]
  }

  /** The calls kept are the latest grants; those dropped are older than the window; grants are spaced. */
  ghost predicate Sound(calls: seq<real>, grants: seq<real>, now: real, max: nat, window: real) {
    && |calls| <= |grants| && |calls| <= max
    && calls == grants[|grants| - |calls|..]
    && Rising(grants) && (grants != [] ==> grants[|grants| - 1] <= now)
    && (forall i :: 0 <= i < |grants| - |calls| ==> grants[i] < now - window)
    && Spaced(grants, max, window)
  }

  lemma PruneKeepsSound(calls: seq<real>, grants: seq<real>, now: real, max: nat, window: real, kept: seq<real>,
                        reading: real)
    requires Sound(calls, grants, now, max, window) && reading >= now
    requires |kept| <= |calls| && kept == calls[|calls| - |kept|..]
    requires forall i :: 0 <= i < |calls| - |kept| ==> calls[i] < reading - window
    ensures Sound(kept, grants, reading, max, window)
  {
    forall i | 0 <= i < |grants| - |kept| ensures grants[i] < reading - window {
      if i >= |grants| - |calls| {
        assert grants[i] == calls[i - (|grants| - |calls|)];
      }
    }
    hide Spaced;
  }

  lemma GrantKeepsSound(calls: seq<real>, grants: seq<real>, now: real, max: nat, window: real)
    requires Sound(calls, grants, now, max, window) && |calls| < max
    ensures Sound(calls + [now], grants + [now], now, max, window)
  {
    GrantStaysSpaced(calls, grants, now, max, window);
    GrantIsKept(calls, grants, now);
    hide Spaced;
  }

  lemma GrantIsKept(calls: seq<real>, grants: seq<real>, now: real)
    requires |calls| <= |grants| && calls == grants[|grants| - |calls|..]
    requires Rising(grants) && (grants != [] ==> grants[|grants| - 1] <= now)
    ensures calls + [now] == (grants + [now])[|grants| - |calls|..] && Rising(grants + [now])
  {
    var all := grants + [now];
    forall i, j | 0 <= i <= j < |all| ensures all[i] <= all[j] {
      if i < j == |grants| {
        assert grants[i] <= grants[|grants| - 1];
      }
    }
  }

  lemma GrantStaysSpaced(calls: seq<real>, grants: seq<real>, now: real, max: nat, window: real)
    requires Sound(calls, grants, now, max, window) && |calls| < max
    ensures Spaced(grants + [now], max, window)
  {
    var all := grants + [now];
    forall i | 0 <= i && i + max < |all| ensures all[i + max] - all[i] > window {
      if i + max == |grants| {
        assert all[i] == grants[i];
      } else {
        assert all[i + max] == grants[i + max] && all[i] == grants[i];
      }
    }
  }

  /** A full set of kept calls means exactly that the max-th last grant is still in the window. */
  lemma FullIffInWindow(kept: seq<real>, grants: seq<real>, now: real, max: nat, window: real)
    requires max > 0 && Sound(kept, grants, now, max, window) && (kept != [] ==> kept[0] >= now - window)
    ensures |kept| == max <==> |grants| >= max && now - grants[|grants| - max] <= window
    ensures |kept| == max ==> kept[0] == grants[|grants| - max]
  {
    hide Spaced;
    if |kept| < max && |grants| >= max {
      assert grants[|grants| - max] < now - window;
    }
  }

  class Limiter {
    const max: int                   // zero or less: no limit
    const window: real
    var calls: seq<real>             // recent grants, oldest first
    ghost var grants: seq<real>      // every grant there ever was
    ghost var now: real              // the last clock reading

    ghost predicate Valid()
      reads this
    {
      max > 0 ==> Sound(calls, grants, now, max, window)
    }

    constructor (max: int, window: real, ghost clock: real)
      ensures Valid() && grants == [] && now == clock && this.max == max && this.window == window
    {
      this.max, this.window, calls, grants, now := max, window, [], [], clock;
    }

    /** Drop the grants that have left the window. */
    method Prune(cutoff: real)
      modifies this`calls
      ensures |calls| <= |old(calls)| && calls == old(calls)[|old(calls)| - |calls|..]
      ensures forall i :: 0 <= i < |old(calls)| - |calls| ==> old(calls)[i] < cutoff
      ensures calls != [] ==> calls[0] >= cutoff
    {
      var start := calls;
      var k := 0;
      while calls != [] && calls[0] < cutoff
        invariant k <= |start| && calls == start[k..]
        invariant forall i :: 0 <= i < k ==> start[i] < cutoff
        decreases |calls|
      {
        calls := calls[1..];
        k := k + 1;
      }
    }

    /** The locked part of acquire, at one clock reading: a grant, or how long to sleep. */
    method TryAcquire(reading: real) returns (wait: Option<real>)
      requires Valid() && max > 0 && reading >= now
      modifies this
      ensures Valid() && now == reading
      ensures wait.None? ==> grants == old(grants) + [reading]
      ensures wait.Some? ==> grants == old(grants)
      ensures wait.Some? <==> |old(grants)| >= max && reading - old(grants)[|old(grants)| - max] <= window
      ensures wait.Some? ==> wait.value == window - (reading - old(grants)[|old(grants)| - max]) && wait.value >= 0.0
    {
      hide Sound;
      ghost var before, earlier := calls, now;
      now := reading;
      Prune(reading - window);
      PruneKeepsSound(before, grants, earlier, max, window, calls, reading);
      FullIffInWindow(calls, grants, now, max, window);
      SoundFits(calls, grants, now, max, window);
      if |calls| < max {
        GrantKeepsSound(calls, grants, now, max, window);
        calls := calls + [reading];
        grants := grants + [reading];
        return None;
      }
      return Some(window - (reading - calls[0]));
    }

    static lemma SoundFits(calls: seq<real>, grants: seq<real>, now: real, max: nat, window: real)
      requires Sound(calls, grants, now, max, window)
      ensures |calls| <= max
    {
    }

    /**
     * acquire over the clock readings its loop makes: it returns at the first reading
     * that is granted, and is still waiting if none is. A limit of zero or less means
     * no limit at all, and nothing is recorded.
     */
    method Acquire(readings: seq<real>) returns (granted: Option<nat>)
      requires Valid() && Rising(readings) && (readings != [] ==> readings[0] >= now)
      modifies this
      ensures Valid()
      ensures max <= 0 ==> granted == Some(0) && grants == old(grants)
      ensures max > 0 && granted.Some? ==>
                granted.value < |readings| && grants == old(grants) + [readings[granted.value]]
      ensures max > 0 && granted.None? ==> grants == old(grants)
      ensures max > 0 ==> forall k :: 0 <= k < (if granted.Some? then granted.value else |readings|) ==>
                |old(grants)| >= max && readings[k] - old(grants)[|old(grants)| - max] <= window
    {
      if max <= 0 {
        return Some(0);
      }
      hide Sound;
      for k := 0 to |readings|
        invariant Valid() && grants == old(grants)
        invariant k == 0 ==> now == old(now)
        invariant k > 0 ==> now == readings[k - 1]
        invariant forall j :: 0 <= j < k ==> |grants| >= max && readings[j] - grants[|grants| - max] <= window
      {
        var wait := TryAcquire(readings[k]);
        if wait.None? {
          return Some(k);
        }
      }
      return None;
    }

    /**
     * Of all the grants the limiter ever gave, any stretch of more than `max` spans more
     * than the window, although old grants are forgotten. Every limiter is valid from its
     * construction on, and stays so over any rising clock readings.
     */
    lemma MoreThanMaxSpanTheWindow(from: nat, to': nat)
      requires Valid() && max > 0 && from + max < to' <= |grants|
      ensures grants[to' - 1] - grants[from] > window
    {
      assert grants[from + max] <= grants[to' - 1];
    }
  }
}
