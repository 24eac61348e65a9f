/** Input accumulators: scroll amounts into ticks, and swipe movements into a position and a velocity. */
module Trackers {
  import opened Prelude

  // Scrolling.

  /** Rounds toward zero. */
  function Trunc(x: real): int {
    if x >= 0.0 then x.Floor else -(-x).Floor
  }

  function Clamp(x: real, limit: real): real {
    if x < -limit then -limit else if x > limit then limit else x
  }

  /** Integer division that rounds toward zero. */
  function Divide(a: int, b: nat): int
    requires b > 0
  {
    if a >= 0 then a / b else -(-a / b)
  }

  /** The whole ticks in `x`; as a tick is a whole number, the fraction of `x` makes no difference. */
  function WholeTicks(x: real, tick: nat): int
    requires tick > 0
  {
    Divide(Trunc(x), tick)
  }

  /** The amount that `n` ticks stand for. */
  function Worth(n: int, t: real): real
    decreases if n < 0 then -n else n
  {
    if n == 0 then 0.0 else if n > 0 then Worth(n - 1, t) + t else Worth(n + 1, t) - t
  }

  /** What is left of `x` after whole ticks, with the sign of `x`. */
  function Remainder(x: real, tick: nat): real
    requires tick > 0
  {
    x - Worth(WholeTicks(x, tick), tick as real)
  }

  /** The ticks in an accumulated amount, at most 127 either way. */
  function TicksIn(acc: real, tick: nat): int
    requires tick > 0
  {
    WholeTicks(Clamp(acc, 127.0 * tick as real), tick)
  }

  datatype Scroll = Scroll(last: real, acc: real)

  const AT_REST := Scroll(0.0, 0.0)

  predicate ChangedDirection(last: real, amount: real) {
    (last > 0.0 && amount < 0.0) || (last < 0.0 && amount > 0.0)
  }

  /** The state after scrolling by `amount`, and the ticks it gives. */
  function Accumulated(s: Scroll, tick: nat, amount: real): (Scroll, int) {
    if tick == 0 then (s, 0)
    else
      var acc := (if ChangedDirection(s.last, amount) then 0.0 else s.acc) + amount;
      if Abs(acc) >= tick as real then (Scroll(amount, Remainder(acc, tick)), TicksIn(acc, tick))
      else (Scroll(amount, acc), 0)
  }

  type ScrollStep = (Scroll, real) -> (Scroll, int)

  function Accumulating(tick: nat): ScrollStep {
    (s: Scroll, amount: real) => Accumulated(s, tick, amount)
  }

  /** One amount after another, with the ticks summed up. */
  function Scrolled(step: ScrollStep, s: Scroll, amounts: seq<real>): (Scroll, int) {
    if amounts == [] then (s, 0)
    else
      var before := Scrolled(step, s, amounts[..|amounts| - 1]);
      var after := step(before.0, amounts[|amounts| - 1]);
      (after.0, before.1 + after.1)
  }

  class ScrollTracker {
    // As an 8-bit signed integer.
    const tick: int
    var last: real
    var acc: real

    function View(): Scroll
      reads this
    {
      Scroll(last, acc)
    }

    constructor (tick: int)
      requires -128 <= tick <= 127
      ensures this.tick == tick && View() == AT_REST
    {
      this.tick, last, acc := tick, 0.0, 0.0;
    }

    /** The ticks scrolled; clamping to the empty range that a negative tick gives panics instead. */
    method Accumulate(amount: real) returns (ticks: Option<int>)
      modifies this
      ensures ticks == None <==> tick < 0
      ensures tick >= 0 ==> (View(), ticks.value) == Accumulated(old(View()), tick, amount)
    {
      if tick == 0 {
        return Some(0);
      }
      var changedDirection := (last > 0.0 && amount < 0.0) || (last < 0.0 && amount > 0.0);
      if changedDirection {
        acc := 0.0;
      }
      last := amount;
      acc := acc + amount;
      if Abs(acc) >= tick as real {
        if tick < 0 {
          return None;
        }
        var clamped := Clamp(acc, 127.0 * tick as real);
        var whole := Trunc(clamped);
        acc := Remainder(acc, tick);
        return Some(Divide(whole, tick));
      }
      return Some(0);
    }

    method Reset()
      modifies this
      ensures View() == AT_REST
    {
      last := 0.0;
      acc := 0.0;
    }
  }

  lemma {:induction false} WorthIsProduct(n: int, t: real)
    ensures Worth(n, t) == n as real * t
    decreases if n < 0 then -n else n
  {
    if n > 0 {
      WorthIsProduct(n - 1, t);
      assert n as real * t == (n - 1) as real * t + t;
    } else if n < 0 {
      WorthIsProduct(n + 1, t);
      assert n as real * t == (n + 1) as real * t - t;
    }
  }

  lemma WorthAdds(a: int, b: int, t: real)
    ensures Worth(a + b, t) == Worth(a, t) + Worth(b, t)
  {
    WorthIsProduct(a, t);
    WorthIsProduct(b, t);
    WorthIsProduct(a + b, t);
    assert (a + b) as real * t == a as real * t + b as real * t;
  }

  lemma {:induction false} WorthNegates(n: int, t: real)
    ensures Worth(-n, t) == -Worth(n, t)
    decreases if n < 0 then -n else n
  {
    if n > 0 {
      WorthNegates(n - 1, t);
    } else if n < 0 {
      WorthNegates(n + 1, t);
    }
  }

  lemma {:induction false} WorthAtLeast(n: nat, t: real)
    requires t > 0.0
    ensures n >= 1 ==> Worth(n, t) >= t
  {
    if n > 1 {
      WorthAtLeast(n - 1, t);
    }
  }

  lemma MoreTicksWorthMore(a: int, b: int, t: real)
    requires t > 0.0 && a < b
    ensures Worth(a, t) + t <= Worth(b, t)
  {
    WorthAtLeast(b - a, t);
    WorthAdds(a, b - a, t);
  }

  lemma FloorBounds(x: real, tick: nat)
    requires x >= 0.0 && tick > 0
    ensures Worth(x.Floor / tick, tick as real) <= x < Worth(x.Floor / tick, tick as real) + tick as real
  {
    var f, q := x.Floor, x.Floor / tick;
    assert f == tick * q + f % tick;
    WorthIsProduct(q, tick as real);
    assert (q * tick) as real == q as real * tick as real;
    assert (q * tick) as real <= f as real && f as real + 1.0 <= (q * tick) as real + tick as real;
  }

  /**
   * Whole ticks and what is left make up the amount; what is left is less than a tick and has the amount's sign.
   */
  lemma RemainderIsTruncated(x: real, tick: nat)
    requires tick > 0
    ensures x == Worth(WholeTicks(x, tick), tick as real) + Remainder(x, tick)
    ensures Abs(Remainder(x, tick)) < tick as real
    ensures if x >= 0.0 then Remainder(x, tick) >= 0.0 else Remainder(x, tick) <= 0.0
  {
    if x >= 0.0 {
      FloorBounds(x, tick);
    } else {
      FloorBounds(-x, tick);
      WorthNegates((-x).Floor / tick, tick as real);
      NegatedDivision(x, tick);
    }
  }

  lemma NegatedDivision(x: real, tick: nat)
    requires x < 0.0 && tick > 0
    ensures WholeTicks(x, tick) == -((-x).Floor / tick)
  {
    if (-x).Floor == 0 {
      assert 0 / tick == 0;
    }
  }

  lemma WholeTicksOfTicks(n: int, tick: nat)
    requires tick > 0
    ensures WholeTicks((n * tick) as real, tick) == n
  {
    var x := (n * tick) as real;
    WorthIsProduct(n, tick as real);
    assert x == Worth(n, tick as real);
    RemainderIsTruncated(x, tick);
    var k := WholeTicks(x, tick);
    if k < n {
      MoreTicksWorthMore(k, n, tick as real);
    } else if n < k {
      MoreTicksWorthMore(n, k, tick as real);
    }
  }

  lemma Limits(t: real)
    ensures Worth(127, t) == 127.0 * t && Worth(128, t) == 128.0 * t
  {
    WorthIsProduct(127, t);
    WorthIsProduct(128, t);
  }

  lemma ClampedUp(x: real, tick: nat)
    requires tick > 0 && x > 127.0 * tick as real
    ensures TicksIn(x, tick) == 127
    ensures WholeTicks(x, tick) == 127 <==> x < 128.0 * tick as real
  {
    WholeTicksOfTicks(127, tick);
    assert Clamp(x, 127.0 * tick as real) == (127 * tick) as real;
    RemainderIsTruncated(x, tick);
    Limits(tick as real);
    BetweenTicks(x, tick as real, WholeTicks(x, tick), 127);
  }

  lemma ClampedDown(x: real, tick: nat)
    requires tick > 0 && x < -127.0 * tick as real
    ensures TicksIn(x, tick) == -127
    ensures WholeTicks(x, tick) == -127 <==> -x < 128.0 * tick as real
  {
    WholeTicksOfTicks(-127, tick);
    assert Clamp(x, 127.0 * tick as real) == (-127 * tick) as real;
    RemainderIsTruncated(x, tick);
    WorthNegates(WholeTicks(x, tick), tick as real);
    Limits(tick as real);
    BetweenTicks(-x, tick as real, -WholeTicks(x, tick), 127);
  }

  /** The clamp takes ticks away from 128 on. */
  lemma ClampCuts(x: real, tick: nat)
    requires tick > 0
    ensures TicksIn(x, tick) == WholeTicks(x, tick) <==> Abs(x) < 128.0 * tick as real
  {
    if x > 127.0 * tick as real {
      ClampedUp(x, tick);
    } else if x < -127.0 * tick as real {
      ClampedDown(x, tick);
    }
  }

  lemma BetweenTicks(x: real, t: real, k: int, n: nat)
    requires t > 0.0 && Worth(k, t) <= x < Worth(k, t) + t && x >= Worth(n, t)
    ensures k == n <==> x < Worth(n + 1, t)
  {
    if k < n {
      MoreTicksWorthMore(k, n, t);
    }
    if k > n + 1 {
      MoreTicksWorthMore(n + 1, k, t);
    }
  }

  lemma SettledIff(v: real, tick: nat)
    requires tick > 0
    ensures Worth(TicksIn(v, tick), tick as real) + Remainder(v, tick) == v <==> Abs(v) < 128.0 * tick as real
  {
    ClampCuts(v, tick);
    var n, k, t := TicksIn(v, tick), WholeTicks(v, tick), tick as real;
    if n < k {
      MoreTicksWorthMore(n, k, t);
    } else if k < n {
      MoreTicksWorthMore(k, n, t);
    }
  }

  function Held(s: Scroll, amount: real): real {
    (if ChangedDirection(s.last, amount) then 0.0 else s.acc) + amount
  }

  /**
   * Ticks and accumulator together account for all that was scrolled exactly when the amount held is under 128 ticks;
   * beyond, the clamp to 127 loses the rest. Less than a tick is ever held over.
   */
  lemma ScrollConservedIff(s: Scroll, tick: nat, amount: real)
    requires tick > 0
    ensures
      var r := Accumulated(s, tick, amount);
      && Abs(r.0.acc) < tick as real
      && (Worth(r.1, tick as real) + r.0.acc == Held(s, amount) <==> Abs(Held(s, amount)) < 128.0 * tick as real)
  {
    var v := Held(s, amount);
    if Abs(v) >= tick as real {
      RemainderIsTruncated(v, tick);
      SettledIff(v, tick);
      assert Accumulated(s, tick, amount) == (Scroll(amount, Remainder(v, tick)), TicksIn(v, tick));
    } else {
      assert Accumulated(s, tick, amount) == (Scroll(amount, v), 0);
    }
  }

  /** Scrolling back starts afresh: what was held over in the other direction is dropped. */
  lemma ReversalStartsAfresh(s: Scroll, tick: nat, amount: real)
    requires (s.last > 0.0 && amount < 0.0) || (s.last < 0.0 && amount > 0.0)
    ensures tick > 0 ==> Accumulated(s, tick, amount) == Accumulated(AT_REST, tick, amount)
  {
  }

  /** All amounts in one direction, `up` or down. */
  predicate OneWay(amounts: seq<real>, up: bool) {
    forall a | a in amounts :: Toward(a, up)
  }

  predicate Toward(a: real, up: bool) {
    if up then a >= 0.0 else a <= 0.0
  }

  /** No step of the run reaches the clamp. */
  predicate Unclamped(step: ScrollStep, s: Scroll, t: real, amounts: seq<real>) {
    amounts == [] ||
    (var before, last := amounts[..|amounts| - 1], amounts[|amounts| - 1];
     Unclamped(step, s, t, before) && Abs(Held(Scrolled(step, s, before).0, last)) < 128.0 * t)
  }

  predicate Facing(s: Scroll, up: bool) {
    Toward(s.last, up) && Toward(s.acc, up)
  }

  lemma StepFaces(s: Scroll, tick: nat, amount: real, up: bool)
    requires tick > 0 && Facing(s, up) && Toward(amount, up)
    ensures Facing(Accumulated(s, tick, amount).0, up)
  {
    var v := Held(s, amount);
    if Abs(v) >= tick as real {
      RemainderIsTruncated(v, tick);
    }
  }

  /** What one step does on the way: it keeps the direction, holds less than a tick and, unclamped, loses nothing. */
  ghost predicate StepConserves(step: ScrollStep, t: real, s: Scroll, amount: real, up: bool) {
    var r := step(s, amount);
    Facing(s, up) && Toward(amount, up) ==>
      && Facing(r.0, up)
      && Abs(r.0.acc) < t
      && (Abs(Held(s, amount)) < 128.0 * t ==> Worth(r.1, t) + r.0.acc == s.acc + amount)
  }

  lemma AccumulatingConserves(tick: nat, s: Scroll, amount: real, up: bool)
    requires tick > 0
    ensures StepConserves(Accumulating(tick), tick as real, s, amount, up)
  {
    if Facing(s, up) && Toward(amount, up) {
      StepFaces(s, tick, amount, up);
      ScrollConservedIff(s, tick, amount);
      assert Held(s, amount) == s.acc + amount;
    }
  }

  lemma {:induction false} RunConserves(step: ScrollStep, t: real, s: Scroll, amounts: seq<real>, up: bool)
    requires forall s: Scroll, amount: real :: StepConserves(step, t, s, amount, up)
    requires Facing(s, up) && Abs(s.acc) < t && OneWay(amounts, up) && Unclamped(step, s, t, amounts)
    ensures
      var r := Scrolled(step, s, amounts);
      && Facing(r.0, up) && Abs(r.0.acc) < t
      && Worth(r.1, t) + r.0.acc == s.acc + Sum(amounts)
  {
    if amounts != [] {
      var n := |amounts| - 1;
      assert forall a | a in amounts[..n] :: a in amounts;
      RunConserves(step, t, s, amounts[..n], up);
      var before := Scrolled(step, s, amounts[..n]);
      assert StepConserves(step, t, before.0, amounts[n], up);
      WorthAdds(before.1, step(before.0, amounts[n]).1, t);
    }
  }

  lemma AllStepsConserve(step: ScrollStep, t: real, tick: nat, up: bool)
    requires tick > 0 && step == Accumulating(tick) && t == tick as real
    ensures forall s: Scroll, amount: real :: StepConserves(step, t, s, amount, up)
  {
    forall s: Scroll, amount: real
      ensures StepConserves(step, t, s, amount, up)
    {
      AccumulatingConserves(tick, s, amount, up);
    }
  }

  /** Scrolling one way conserves: the ticks so far and the accumulator add up to the sum of the amounts. */
  lemma OneWayScrollConserves(tick: nat, s: Scroll, amounts: seq<real>, up: bool)
    requires tick > 0 && Facing(s, up) && Abs(s.acc) < tick as real
    requires OneWay(amounts, up) && Unclamped(Accumulating(tick), s, tick as real, amounts)
    ensures
      var r := Scrolled(Accumulating(tick), s, amounts);
      && Abs(r.0.acc) < tick as real && Facing(r.0, up)
      && Worth(r.1, tick as real) + r.0.acc == s.acc + Sum(amounts)
  {
    AllStepsConserve(Accumulating(tick), tick as real, tick, up);
    RunConserves(Accumulating(tick), tick as real, s, amounts, up);
  }

  lemma SameTicks(t: real, a: int, b: int, x: real, y: real)
    requires t > 0.0 && Worth(a, t) + x == Worth(b, t) + y && -t < x - y < t
    ensures a == b && x == y
  {
    if a > b {
      MoreTicksWorthMore(b, a, t);
    } else if a < b {
      MoreTicksWorthMore(a, b, t);
    }
  }

  lemma SplitRunsAgree(step: ScrollStep, t: real, s: Scroll, a: seq<real>, b: seq<real>, up: bool)
    requires forall s: Scroll, amount: real :: StepConserves(step, t, s, amount, up)
    requires t > 0.0 && Facing(s, up) && Abs(s.acc) < t
    requires OneWay(a, up) && Unclamped(step, s, t, a) && OneWay(b, up) && Unclamped(step, s, t, b)
    requires Sum(a) == Sum(b)
    ensures Scrolled(step, s, a).1 == Scrolled(step, s, b).1 && Scrolled(step, s, a).0.acc == Scrolled(step, s, b).0.acc
  {
    RunConserves(step, t, s, a, up);
    RunConserves(step, t, s, b, up);
    var ra, rb := Scrolled(step, s, a), Scrolled(step, s, b);
    SameTicks(t, ra.1, rb.1, ra.0.acc, rb.0.acc);
  }

  /** Splitting a scroll in one direction differently gives the same total ticks and leaves the same amount held. */
  lemma SplitScrollsAgree(tick: nat, s: Scroll, a: seq<real>, b: seq<real>, up: bool)
    requires tick > 0 && Facing(s, up) && Abs(s.acc) < tick as real
    requires OneWay(a, up) && Unclamped(Accumulating(tick), s, tick as real, a)
    requires OneWay(b, up) && Unclamped(Accumulating(tick), s, tick as real, b)
    requires Sum(a) == Sum(b)
    ensures
      var ra, rb := Scrolled(Accumulating(tick), s, a), Scrolled(Accumulating(tick), s, b);
      ra.1 == rb.1 && ra.0.acc == rb.0.acc
  {
    AllStepsConserve(Accumulating(tick), tick as real, tick, up);
    SplitRunsAgree(Accumulating(tick), tick as real, s, a, b, up);
  }

  // Swiping.

  /** In nanoseconds: 150 ms. */
  const HISTORY_LIMIT := 150_000_000

  datatype Swipe = Swipe(delta: real, timestamp: nat)

  ghost predicate InOrder(log: seq<Swipe>) {
    forall i, j | 0 <= i < j < |log| :: log[i].timestamp <= log[j].timestamp
  }

  /** The readings no older than the limit at the time `now`. */
  function Recent(log: seq<Swipe>, now: nat): seq<Swipe> {
    if log == [] then []
    else
      var rest := Recent(log[..|log| - 1], now);
      if now <= log[|log| - 1].timestamp + HISTORY_LIMIT then rest + [log[|log| - 1]] else rest
  }

  function Travel(log: seq<Swipe>): real {
    if log == [] then 0.0 else Travel(log[..|log| - 1]) + log[|log| - 1].delta
  }

  /** Filtering again, later, is the same as filtering once then. */
  lemma {:induction false} RecentOfRecent(log: seq<Swipe>, before: nat, now: nat)
    requires before <= now
    ensures Recent(Recent(log, before), now) == Recent(log, now)
  {
    if log != [] {
      var n := |log| - 1;
      RecentOfRecent(log[..n], before, now);
      var rest := Recent(log[..n], before);
      if before <= log[n].timestamp + HISTORY_LIMIT {
        assert (rest + [log[n]])[..|rest|] == rest;
      }
    }
  }

  lemma {:induction false} RecentKeepsAll(log: seq<Swipe>, now: nat)
    requires forall e | e in log :: now <= e.timestamp + HISTORY_LIMIT
    ensures Recent(log, now) == log
  {
    if log != [] {
      var n := |log| - 1;
      assert forall e | e in log[..n] :: e in log;
      assert log[n] in log;
      RecentKeepsAll(log[..n], now);
      assert log == log[..n] + [log[n]];
    }
  }

  lemma {:induction false} RecentDropsFirst(log: seq<Swipe>, now: nat)
    requires log != [] && now > log[0].timestamp + HISTORY_LIMIT
    ensures Recent(log, now) == Recent(log[1..], now)
  {
    if |log| > 1 {
      var n := |log| - 1;
      RecentDropsFirst(log[..n], now);
      assert log[..n][1..] == log[1..][..n - 1];
      assert log[1..][n - 1] == log[n];
    }
  }

  lemma {:induction false} RecentInOrder(log: seq<Swipe>, now: nat)
    requires InOrder(log)
    ensures InOrder(Recent(log, now))
    ensures forall e | e in Recent(log, now) :: e in log
    ensures log != [] && now <= log[|log| - 1].timestamp + HISTORY_LIMIT ==>
      Recent(log, now) != [] && Recent(log, now)[|Recent(log, now)| - 1] == log[|log| - 1]
  {
    if log != [] {
      var n := |log| - 1;
      RecentInOrder(log[..n], now);
      var rest := Recent(log[..n], now);
      forall e | e in rest ensures e in log && e.timestamp <= log[n].timestamp {
        assert e in log[..n];
      }
      assert forall i | 0 <= i < |rest| :: rest[i] in rest;
    }
  }

  class SwipeTracker {
    var history: seq<Swipe>
    var pos: real
    // Every reading accepted so far.
    ghost var accepted: seq<Swipe>

    function Last(): nat
      reads this
    {
      if history == [] then 0 else history[|history| - 1].timestamp
    }

    /** The history is the accepted log cut to the last 150 ms, and the position the sum of all of it. */
    ghost predicate Valid()
      reads this
    {
      && InOrder(accepted)
      && (history == [] <==> accepted == [])
      && (accepted != [] ==> accepted[|accepted| - 1] == history[|history| - 1])
      && history == Recent(accepted, Last())
      && pos == Travel(accepted)
    }

    constructor ()
      ensures Valid() && accepted == [] && pos == 0.0
    {
      history, pos, accepted := [], 0.0, [];
    }

    /** Adds a reading, unless it is older than the last. */
    method Push(delta: real, timestamp: nat)
      requires Valid()
      modifies this
      ensures Valid()
      ensures accepted == old(accepted) +
        (if old(accepted) != [] && timestamp < old(accepted)[|old(accepted)| - 1].timestamp then [] else [Swipe(delta, timestamp)])
    {
      if history != [] {
        if timestamp < history[|history| - 1].timestamp {
          assert accepted + [] == accepted;
          return;
        }
      }
      var reading := Swipe(delta, timestamp);
      PushedRecent(accepted, history, Last(), reading);
      history := history + [reading];
      pos := pos + delta;
      accepted := accepted + [reading];
      TrimHistory(timestamp);
    }

    /** Drops readings from the front while they are too old. */
    method TrimHistory(now: nat)
      requires history != [] && InOrder(history) && history[|history| - 1].timestamp == now
      modifies this`history
      ensures history == Recent(old(history), now)
    {
      while history != []
        invariant InOrder(history)
        invariant Recent(history, now) == Recent(old(history), now)
        decreases |history|
      {
        if now <= history[0].timestamp + HISTORY_LIMIT {
          break;
        }
        RecentDropsFirst(history, now);
        history := history[1..];
      }
      if history != [] {
        forall e | e in history ensures now <= e.timestamp + HISTORY_LIMIT {
          var i :| 0 <= i < |history| && history[i] == e;
        }
        RecentKeepsAll(history, now);
      }
    }

    method TotalDelta() returns (total: real)
      ensures total == Travel(history)
    {
      total := 0.0;
      for i := 0 to |history|
        invariant total == Travel(history[..i])
      {
        assert history[..i + 1][..i] == history[..i];
        total := total + history[i].delta;
      }
      assert history[..|history|] == history;
    }

    /** Movement per second over the last 150 ms of accepted readings; zero when they span no time. */
    method Velocity() returns (velocity: real)
      requires Valid()
      ensures
        var recent := Recent(accepted, Last());
        velocity ==
          if recent == [] || Last() <= recent[0].timestamp then 0.0
          else Travel(recent) / Seconds(Last() - recent[0].timestamp)
    {
      if history == [] {
        return 0.0;
      }
      HistoryInOrder();
      var totalTime := Seconds(Last() - history[0].timestamp);
      if totalTime == 0.0 {
        return 0.0;
      }
      var totalDelta := TotalDelta();
      velocity := totalDelta / totalTime;
    }

    lemma HistoryInOrder()
      requires Valid() && history != []
      ensures history[0].timestamp <= Last()
    {
      RecentInOrder(accepted, Last());
    }
  }

  function Seconds(nanoseconds: nat): (s: real)
    ensures s == 0.0 <==> nanoseconds == 0
  {
    nanoseconds as real / 1_000_000_000.0
  }

  lemma HistoryUntil(log: seq<Swipe>, last: nat)
    requires InOrder(log) && (log != [] ==> log[|log| - 1].timestamp == last)
    ensures InOrder(Recent(log, last))
    ensures forall i | 0 <= i < |log| :: log[i].timestamp <= last
    ensures forall i | 0 <= i < |Recent(log, last)| :: Recent(log, last)[i].timestamp <= last
  {
    RecentInOrder(log, last);
    forall i | 0 <= i < |Recent(log, last)| ensures Recent(log, last)[i].timestamp <= last {
      assert Recent(log, last)[i] in Recent(log, last);
      assert Recent(log, last)[i] in log;
    }
  }

  lemma LastIsRecent(log: seq<Swipe>, reading: Swipe)
    ensures
      var recent := Recent(log + [reading], reading.timestamp);
      recent != [] && recent[|recent| - 1] == reading && recent == Recent(log, reading.timestamp) + [reading]
  {
    assert (log + [reading])[..|log|] == log;
  }

  /** A new reading on the kept history, cut now, is the whole log cut now, and ends with the reading. */
  lemma {:induction false} PushedRecent(log: seq<Swipe>, history: seq<Swipe>, last: nat, reading: Swipe)
    requires InOrder(log) && history == Recent(log, last) && last <= reading.timestamp
    requires log != [] ==> log[|log| - 1].timestamp == last
    ensures InOrder(log + [reading]) && InOrder(history + [reading])
    ensures
      var recent := Recent(log + [reading], reading.timestamp);
      && recent == Recent(history + [reading], reading.timestamp)
      && recent != [] && recent[|recent| - 1] == reading
    ensures Travel(log + [reading]) == Travel(log) + reading.delta
  {
    HistoryUntil(log, last);
    RecentOfRecent(log, last, reading.timestamp);
    LastIsRecent(log, reading);
    LastIsRecent(history, reading);
    assert (log + [reading])[..|log|] == log;
  }
}
