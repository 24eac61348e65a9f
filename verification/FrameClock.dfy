/** Predicting the next presentation from the last one and the refresh interval, in nanoseconds. */
module FrameClocks {
  import opened Prelude

  const SECOND := 1_000_000_000

  /** The prediction at `now` after a presentation at `last`, by cases. */
  function Predicted(now: nat, last: nat, interval: nat, vrr: bool): nat
    requires interval > 0
  {
    if now < last then last + interval
    else if now == last then if vrr then last + interval else last + 2 * interval
    else if now < last + interval then last + interval
    else if vrr then now
    else last + ((now - last) / interval + 1) * interval
  }

  class FrameClock {
    var lastPresentationTime: Option<nat>
    var refreshInterval: Option<nat>
    var vrr: bool

    ghost predicate Valid()
      reads this
    {
      refreshInterval.Some? ==> 0 < refreshInterval.value < SECOND
    }

    /** A zero interval counts as unknown. */
    constructor (interval: Option<nat>, vrr: bool)
      requires interval.Some? ==> interval.value < SECOND
      ensures Valid() && lastPresentationTime == None && this.vrr == vrr
      ensures refreshInterval == if interval == Some(0) then None else interval
    {
      lastPresentationTime, this.vrr := None, vrr;
      refreshInterval := if interval == Some(0) then None else interval;
    }

    /** Changing the mode forgets the last presentation. */
    method SetVrr(on: bool)
      requires Valid()
      modifies this
      ensures Valid() && vrr == on && refreshInterval == old(refreshInterval)
      ensures lastPresentationTime == if old(vrr) == on then old(lastPresentationTime) else None
    {
      if vrr == on {
        return;
      }
      vrr := on;
      lastPresentationTime := None;
    }

    method Presented(time: nat)
      requires Valid()
      modifies this
      ensures Valid() && vrr == old(vrr) && refreshInterval == old(refreshInterval)
      ensures lastPresentationTime == if time == 0 then old(lastPresentationTime) else Some(time)
    {
      if time == 0 {
        return;
      }
      lastPresentationTime := Some(time);
    }

    method NextPresentationTime(monotonicTime: nat) returns (next: nat)
      requires Valid()
      ensures next == if refreshInterval.Some? && lastPresentationTime.Some?
        then Predicted(monotonicTime, lastPresentationTime.value, refreshInterval.value, vrr) else monotonicTime
    {
      var now := monotonicTime;
      if refreshInterval.None? || lastPresentationTime.None? {
        return now;
      }
      var interval, last := refreshInterval.value, lastPresentationTime.value;
      if now <= last {
        // An early VBlank.
        now := now + interval;
        if now < last {
          now := last;
        }
      }
      var sinceLast := now - last;
      var toNext := (sinceLast / interval + 1) * interval;
      WithinInterval(sinceLast, interval);
      if vrr && toNext > interval {
        next := now;
      } else {
        next := last + toNext;
      }
    }
  }

  lemma WithinInterval(since: nat, interval: nat)
    requires interval > 0
    ensures since < interval ==> since / interval == 0
    ensures since >= interval ==> since / interval >= 1 && (since / interval + 1) * interval > interval
    ensures interval / interval == 1
  {
    if since >= interval {
      DivisionBounds(since, interval);
      var q := since / interval;
      assert (q + 1) * interval == q * interval + interval;
      assert q >= 1;
      assert q * interval > 0;
    }
    DivisionBounds(interval, interval);
  }

  lemma DivisionBounds(a: nat, b: nat)
    requires b > 0
    ensures (a / b) * b <= a < (a / b + 1) * b
  {
    assert a == b * (a / b) + a % b;
  }

  lemma MultiplesSeparated(k: int, j: int, r: nat)
    requires r > 0 && k < j
    ensures k * r + r <= j * r
  {
    var d := j - k - 1;
    assert d * r >= 0;
    assert (k + 1 + d) * r == k * r + r + d * r;
  }

  /**
   * Without VRR, after the last presentation the prediction is the first multiple of the interval past it that is
   * strictly after now, hence at most one interval away.
   */
  lemma PredictsFirstMultiple(now: nat, last: nat, interval: nat, k: int)
    requires interval > 0 && now > last
    ensures
      var next := Predicted(now, last, interval, false);
      && now < next <= now + interval
      && (exists j: nat :: next == last + j * interval)
      && (last + k * interval > now ==> next <= last + k * interval)
  {
    var since := now - last;
    WithinInterval(since, interval);
    DivisionBounds(since, interval);
    var q := since / interval;
    var next := Predicted(now, last, interval, false);
    assert next == last + (q + 1) * interval;
    assert (q + 1) * interval == q * interval + interval;
    if k < q + 1 && last + k * interval > now {
      if k < q {
        MultiplesSeparated(k, q, interval);
      }
      assert false;
    }
    if q + 1 < k {
      MultiplesSeparated(q + 1, k, interval);
    }
  }

  /** An early VBlank, however early, is one interval before the next; at the very moment of presentation it is two. */
  lemma PredictsAfterEarlyVBlank(now: nat, last: nat, interval: nat, vrr: bool)
    requires interval > 0 && now <= last
    ensures Predicted(now, last, interval, vrr) == last + interval <==> now < last || vrr
    ensures now == last && !vrr ==> Predicted(now, last, interval, vrr) == last + 2 * interval
  {
  }

  /** With VRR a frame can be shown at once when an interval has passed. */
  lemma PredictsWithVrr(now: nat, last: nat, interval: nat)
    requires interval > 0
    ensures Predicted(now, last, interval, true) == if now >= last + interval then now else last + interval
  {
  }

  /**
   * A later clock never predicts an earlier frame, with one exception: without VRR, the moment of presentation
   * itself predicts one frame later than the rest of its interval.
   */
  lemma PredictionIsMonotoneIff(a: nat, b: nat, last: nat, interval: nat, vrr: bool)
    requires interval > 0 && a <= b
    ensures Predicted(a, last, interval, vrr) <= Predicted(b, last, interval, vrr)
      <==> !(!vrr && a == last && last < b < last + interval)
  {
    if a > last && !vrr {
      PredictsFirstMultiple(a, last, interval, (b - last) / interval + 1);
      PredictsFirstMultiple(b, last, interval, 0);
      if b >= last + interval {
        DivisionBounds(b - last, interval);
      }
    } else if b >= last + interval && !vrr {
      PredictsFirstMultiple(b, last, interval, 0);
      AtLeastTwo(b - last, interval);
    }
  }

  lemma AtLeastTwo(since: nat, interval: nat)
    requires interval > 0 && since >= interval
    ensures (since / interval + 1) * interval >= 2 * interval
  {
    WithinInterval(since, interval);
    if since / interval + 1 > 2 {
      MultiplesSeparated(2, since / interval + 1, interval);
    }
  }
}
