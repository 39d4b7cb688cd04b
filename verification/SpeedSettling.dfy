/** How fast the filtered speed settles on a constant reading, and how many events that costs. */
module SpeedSettling {
  import opened VehicleModes
  import opened SpeedSimulator
  import Boards
  import Float32

  /** Timer ticks driven by the accelerator: Run mode, no override in force, filter within the converter's range. */
  predicate Driving(m: Meter) {
    m.sim.mode == RUN && !m.sim.override.AtLeast(0.0) && 0.0 <= m.sim.smoothed <= 4095.0
  }

  function Ticks(m: Meter, raw: nat, n: nat): Meter {
    if n == 0 then m else Ticks(m, raw, n - 1).Tick(raw)
  }

  /** A released pedal means standing still, a floored one 200 km/h, others the nearest of 40 steps. */
  function SettledSpeed(raw: nat): (speed: Speed)
    ensures speed % 5 == 0
  {
    if raw < 200 then 0 else if raw > 3895 then 200 else (16 * raw + 819) / 1638 * 5
  }

  /** After n ticks of any constant reading, from any filter state, the speed shown is the reading's own. */
  ghost predicate SettledBy(n: nat) {
    forall m: Meter, raw: nat :: Driving(m) ==> Ticks(m, raw, n).sim.speed == SettledSpeed(raw)
  }

  // ----- The decay of the filter error -----

  /** 0.97 to the power n. */
  function Decay(n: nat): (d: real)
    ensures 0.0 < d <= 1.0
  {
    if n == 0 then 1.0 else 0.97 * Decay(n - 1)
  }

  lemma {:induction false} DecayAdd(a: nat, b: nat)
    ensures Decay(a + b) == Decay(a) * Decay(b)
  {
    if a > 0 {
      DecayAdd(a - 1, b);
      assert Decay(a + b) == 0.97 * Decay(a + b - 1);
      var x, y := Decay(a - 1), Decay(b);
      assert 0.97 * (x * y) == (0.97 * x) * y;
    } else {
      assert Decay(b) == 1.0 * Decay(b);
    }
  }

  lemma {:induction false} DecayFalls(a: nat, b: nat)
    requires a <= b
    ensures Decay(b) <= Decay(a)
  {
    if a < b {
      DecayFalls(a, b - 1);
    }
  }

  lemma Product(x: real, y: real, xLow: real, xHigh: real, yLow: real, yHigh: real)
    requires 0.0 <= xLow <= x <= xHigh && 0.0 <= yLow <= y <= yHigh
    ensures xLow * yLow <= x * y <= xHigh * yHigh
  {
    assert (x - xLow) * y >= 0.0 && xLow * (y - yLow) >= 0.0;
    assert (xHigh - x) * y >= 0.0 && xHigh * (yHigh - y) >= 0.0;
  }

  /** The powers of 0.97 that matter, by repeated squaring with outward rounding. */
  lemma Decay5()
    ensures 0.858734 <= Decay(5) <= 0.858735
  {
    assert Decay(1) == 0.97 && Decay(2) == 0.9409;
    assert Decay(3) == 0.912673;
    assert Decay(4) == 0.97 * Decay(3);
    assert Decay(5) == 0.97 * Decay(4);
  }

  lemma DecayStep(a: nat, b: nat, aLow: real, aHigh: real, bLow: real, bHigh: real)
    requires 0.0 <= aLow <= Decay(a) <= aHigh && 0.0 <= bLow <= Decay(b) <= bHigh
    ensures aLow * bLow <= Decay(a + b) <= aHigh * bHigh
  {
    hide Decay;
    DecayAdd(a, b);
    Product(Decay(a), Decay(b), aLow, aHigh, bLow, bHigh);
  }

  lemma Decay45()
    ensures 0.253937 <= Decay(45) <= 0.253943
  {
    Decay5();
    hide Decay;
    DecayStep(5, 5, 0.858734, 0.858735, 0.858734, 0.858735);
    DecayStep(10, 10, 0.737424, 0.737426, 0.737424, 0.737426);
    DecayStep(20, 20, 0.543794, 0.543798, 0.543794, 0.543798);
    DecayStep(40, 5, 0.295711, 0.295717, 0.858734, 0.858735);
  }

  lemma Decay180()
    ensures 0.00415817 <= Decay(180) <= 0.00415859
  {
    hide Decay;
    Decay45();
    DecayStep(45, 45, 0.253937, 0.253943, 0.253937, 0.253943);
    DecayStep(90, 90, 0.0644839, 0.0644871, 0.0644839, 0.0644871);
  }

  lemma Decay360()
    ensures 0.00001729 <= Decay(360) <= 0.000017294
  {
    Decay180();
    DecayStep(180, 180, 0.00415817, 0.00415859, 0.00415817, 0.00415859);
  }

  /** The filter alone, fed n times with the same reading. */
  function Smoothed(start: real, c: Reading, n: nat): real {
    if n == 0 then start else Filter(Smoothed(start, c, n - 1), c)
  }

  /** After n ticks the filter is off the reading by 0.97^n of the first error. */
  lemma {:induction false} FilterError(start: real, c: Reading, n: nat)
    ensures Smoothed(start, c, n) == c as real + Decay(n) * (start - c as real)
  {
    if n > 0 {
      FilterError(start, c, n - 1);
      FilterOnce(c as real, Decay(n - 1), start - c as real);
    }
  }

  lemma FilterOnce(c: real, d: real, e: real)
    ensures c + d * e + 0.03 * (c - (c + d * e)) == c + (0.97 * d) * e
  {
    assert (0.97 * d) * e == 0.97 * (d * e);
  }

  /** A driving tick: the filter moves, its speed is shown, an event goes out if that is news. */
  lemma OneTick(m: Meter, raw: nat)
    requires Driving(m)
    ensures var m' := m.Tick(raw);
            && Driving(m')
            && m'.sim.smoothed == Filter(m.sim.smoothed, DeadZoned(raw))
            && m'.sim.speed == m'.sim.lastSent == FilteredSpeed(m'.sim.smoothed)
            && |m'.board.sent| == |m.board.sent| + if m'.sim.speed == m.sim.lastSent then 0 else 1
  {
  }

  lemma {:induction false} TicksFollowFilter(m: Meter, raw: nat, n: nat)
    requires Driving(m)
    ensures var m' := Ticks(m, raw, n);
            && Driving(m')
            && m'.sim.smoothed == Smoothed(m.sim.smoothed, DeadZoned(raw), n)
            && (n > 0 ==> m'.sim.speed == FilteredSpeed(m'.sim.smoothed))
  {
    if n > 0 {
      TicksFollowFilter(m, raw, n - 1);
      hide Meter.Tick;
      hide FilteredSpeed;
      OneTick(Ticks(m, raw, n - 1), raw);
    }
  }

  lemma DecayLate(n: nat)
    requires n >= 360
    ensures 0.0 < Decay(n) <= 0.000017294
  {
    hide Decay;
    Decay360();
    DecayFalls(360, n);
  }

  lemma DecayNext(n: nat)
    ensures Decay(n + 1) == 0.97 * Decay(n)
  {
  }

  lemma DecayEarly(n: nat)
    requires n < 360
    ensures Decay(n) >= 0.0000178
  {
    hide Decay;
    Decay360();
    DecayFalls(n + 1, 360);
    DecayNext(n);
  }

  // ----- Where the rounding boundaries lie -----

  /** The number of 5 km/h steps shown for a filter value: the k with 1638k <= 16s + 819 < 1638(k + 1). */
  lemma StepsOf(smoothed: real, k: int)
    requires 0.0 <= smoothed <= 4095.0
    requires 1638.0 * k as real <= 16.0 * smoothed + 819.0 < 1638.0 * (k + 1) as real
    ensures 0 <= k <= 40 && FilteredSpeed(smoothed) == k * STEP
  {
    var x := smoothed / 4095.0 * 200.0 / 5.0;
    assert x == smoothed * 16.0 / 1638.0;
    assert k as real <= x + 0.5 < (k + 1) as real;
    assert (x + 0.5).Floor == k;
  }

  /** The reading's own step count and its distances to the boundaries on either side, in sixteenths. */
  function OwnSteps(c: Reading): int {
    (16 * c + 819) / 1638
  }

  function GapAbove(c: Reading): int {
    1638 * (OwnSteps(c) + 1) - (16 * c + 819)
  }

  function GapBelow(c: Reading): int {
    16 * c + 819 - 1638 * OwnSteps(c)
  }

  /**
   * No reading lies on a boundary: 16c is even and 819(2k + 1) is odd. A gap of a single sixteenth
   * is met only by readings far from the opposite end of the range.
   */
  lemma Gaps(c: Reading)
    ensures GapAbove(c) >= 1 && GapBelow(c) >= 1
    ensures GapAbove(c) == 1 || GapAbove(c) >= 3
    ensures GapBelow(c) == 1 || GapBelow(c) >= 3
    ensures GapAbove(c) == 1 ==> c >= 563
    ensures GapBelow(c) == 1 ==> c <= 3532
  {
    var k := OwnSteps(c);
    assert 1638 * k <= 16 * c + 819 < 1638 * (k + 1);
    Odd(8 * c - 819 * k, GapBelow(c));
    Odd(819 * k - 8 * c, GapAbove(c));
    if GapAbove(c) == 1 {
      assert 8 * c == 819 * k + 409;
    }
    if GapBelow(c) == 1 {
      assert 8 * c == 819 * k - 409;
    }
  }

  lemma Odd(half: int, gap: int)
    requires gap == 2 * half + 819
    ensures gap % 2 == 1
  {
  }

  lemma SettledSteps(c: Reading)
    ensures FilteredSpeed(c as real) == OwnSteps(c) * STEP
  {
    StepsOf(c as real, OwnSteps(c));
  }

  /** What the filter shows once it has reached the reading. */
  lemma OwnSpeed(raw: nat)
    ensures FilteredSpeed(DeadZoned(raw) as real) == SettledSpeed(raw)
  {
    SettledSteps(DeadZoned(raw));
    hide FilteredSpeed;
  }

  /** An error within the gaps does not show. */
  lemma SmallErrorInvisible(c: Reading, smoothed: real)
    requires 0.0 <= smoothed <= 4095.0
    requires 16.0 * (smoothed - c as real) < GapAbove(c) as real
    requires 16.0 * (c as real - smoothed) <= GapBelow(c) as real
    ensures FilteredSpeed(smoothed) == FilteredSpeed(c as real)
  {
    StepsOf(smoothed, OwnSteps(c));
    SettledSteps(c);
  }

  // ----- The settling time -----

  lemma WithinGap(d: real, error: real, gap: int, limit: real)
    requires 0.0 < d <= 0.000017294 && error <= limit && gap >= 1
    requires limit == if gap == 1 then 3532.0 else 4095.0
    requires gap == 1 || gap >= 3
    ensures 16.0 * (d * error) < gap as real
  {
    if error > 0.0 {
      Product(d, error, 0.0, 0.000017294, 0.0, limit);
    } else {
      assert d * error <= 0.0;
    }
  }

  /** From 360 ticks on, the error is within the gaps for every reading and every start. */
  lemma ErrorWithinGaps(c: Reading, start: real, n: nat)
    requires 0.0 <= start <= 4095.0 && n >= 360
    ensures 16.0 * (Decay(n) * (start - c as real)) < GapAbove(c) as real
    ensures 16.0 * (Decay(n) * (c as real - start)) < GapBelow(c) as real
  {
    hide Decay;
    hide GapAbove;
    hide GapBelow;
    Gaps(c);
    DecayLate(n);
    WithinGap(Decay(n), start - c as real, GapAbove(c), if GapAbove(c) == 1 then 3532.0 else 4095.0);
    WithinGap(Decay(n), c as real - start, GapBelow(c), if GapBelow(c) == 1 then 3532.0 else 4095.0);
  }

  lemma {:induction false} SmoothedInRange(start: real, c: Reading, n: nat)
    requires 0.0 <= start <= 4095.0
    ensures 0.0 <= Smoothed(start, c, n) <= 4095.0
  {
    if n > 0 {
      SmoothedInRange(start, c, n - 1);
    }
  }

  lemma FilterSettlesIn360(start: real, c: Reading, n: nat)
    requires 0.0 <= start <= 4095.0 && n >= 360
    ensures FilteredSpeed(Smoothed(start, c, n)) == FilteredSpeed(c as real)
  {
    FilterError(start, c, n);
    ErrorWithinGaps(c, start, n);
    SmoothedInRange(start, c, n);
    var d := Decay(n);
    assert d * (c as real - start) == -(d * (start - c as real));
    hide FilteredSpeed;
    SmallErrorInvisible(c, Smoothed(start, c, n));
  }

  lemma SettlesIn360(m: Meter, raw: nat, n: nat)
    requires Driving(m) && n >= 360
    ensures Ticks(m, raw, n).sim.speed == SettledSpeed(raw)
  {
    hide Meter.Tick;
    hide FilteredSpeed;
    TicksFollowFilter(m, raw, n);
    FilterSettlesIn360(m.sim.smoothed, DeadZoned(raw), n);
    OwnSpeed(raw);
    hide SettledSpeed;
    hide DeadZoned;
  }

  /** The slowest case: full throttle let go to reading 563, a sixteenth below a boundary. */
  function Slowest(): Meter {
    Meter(Sim(RUN, 30, 30, 4095.0, Float32.Finite(-1.0)), Boards.POWER_ON)
  }

  lemma StillAbove(n: nat)
    requires 0 < n < 360
    ensures FilteredSpeed(Smoothed(4095.0, 563, n)) != 25
  {
    hide Decay;
    hide Smoothed;
    FilterError(4095.0, 563, n);
    DecayEarly(n);
    ShownAbove(Smoothed(4095.0, 563, n));
  }

  lemma ShownAbove(s: real)
    requires s >= 563.0625
    ensures FilteredSpeed(s) != 25
  {
    assert s / 4095.0 * 200.0 / 5.0 + 0.5 >= 6.0;
  }

  lemma NotSettledBefore360(n: nat)
    requires n < 360
    ensures Driving(Slowest()) && Ticks(Slowest(), 563, n).sim.speed != SettledSpeed(563)
  {
    SettledSteps(563);
    if n > 0 {
      TicksFollowFilter(Slowest(), 563, n);
      StillAbove(n);
    }
  }

  /** The settling time is exactly 360 ticks. */
  lemma SettlingTime(n: nat)
    ensures SettledBy(n) <==> n >= 360
  {
    if n >= 360 {
      forall m: Meter, raw: nat | Driving(m)
        ensures Ticks(m, raw, n).sim.speed == SettledSpeed(raw)
      {
        SettlesIn360(m, raw, n);
      }
    } else {
      NotSettledBefore360(n);
    }
  }

  // ----- The number of events -----

  lemma FilteredSpeedMonotone(a: real, b: real)
    requires 0.0 <= a <= b
    ensures FilteredSpeed(a) <= FilteredSpeed(b)
  {
    var x, y := a / 4095.0 * 200.0 / 5.0, b / 4095.0 * 200.0 / 5.0;
    assert x <= y;
    assert (x + 0.5).Floor <= (y + 0.5).Floor;
  }

  function Distance(a: int, b: int): nat {
    if a <= b then b - a else a - b
  }

  /** Towards a constant reading the filter never turns back, so neither does the speed. */
  lemma SpeedApproaches(s: real, c: Reading)
    requires 0.0 <= s <= 4095.0
    ensures var v, v', w := FilteredSpeed(s), FilteredSpeed(Filter(s, c)), FilteredSpeed(c as real);
            v <= v' <= w || w <= v' <= v
  {
    var s' := Filter(s, c);
    if s <= c as real {
      FilteredSpeedMonotone(s, s');
      FilteredSpeedMonotone(s', c as real);
    } else {
      FilteredSpeedMonotone(c as real, s');
      FilteredSpeedMonotone(s', s);
    }
  }

  lemma MultipleOfStep(s: real)
    ensures FilteredSpeed(s) % STEP == 0
  {
  }

  /** An event brings the speed shown at least one step nearer to the settled speed. */
  lemma OneEvent(m: Meter, raw: nat)
    requires Driving(m) && m.sim.speed == m.sim.lastSent == FilteredSpeed(m.sim.smoothed)
    ensures var m' := m.Tick(raw);
            && Driving(m') && m'.sim.speed == m'.sim.lastSent == FilteredSpeed(m'.sim.smoothed)
            && STEP * (|m'.board.sent| - |m.board.sent|)
            <= Distance(m.sim.speed, SettledSpeed(raw)) - Distance(m'.sim.speed, SettledSpeed(raw))
  {
    OneTick(m, raw);
    SpeedApproaches(m.sim.smoothed, DeadZoned(raw));
    OwnSpeed(raw);
    MultipleOfStep(m.sim.smoothed);
    MultipleOfStep(m.Tick(raw).sim.smoothed);
    hide Meter.Tick;
    hide FilteredSpeed;
    hide SettledSpeed;
    hide DeadZoned;
  }

  /** Once the speed shown is the filter's, the events are paid for by the distance to the settled speed. */
  lemma {:induction false} EventsWhileSettling(m: Meter, raw: nat, n: nat)
    requires Driving(m) && m.sim.speed == m.sim.lastSent == FilteredSpeed(m.sim.smoothed)
    ensures var m' := Ticks(m, raw, n);
            && Driving(m') && m'.sim.speed == m'.sim.lastSent == FilteredSpeed(m'.sim.smoothed)
            && STEP * (|m'.board.sent| - |m.board.sent|)
            <= Distance(m.sim.speed, SettledSpeed(raw)) - Distance(m'.sim.speed, SettledSpeed(raw))
  {
    if n > 0 {
      EventsWhileSettling(m, raw, n - 1);
      hide Meter.Tick;
      hide FilteredSpeed;
      OneEvent(Ticks(m, raw, n - 1), raw);
    }
  }

  /** However long a constant reading lasts, it raises at most 41 speed events: one to catch up, 40 steps. */
  lemma AtMost41Events(m: Meter, raw: nat, n: nat)
    requires Driving(m)
    ensures |Ticks(m, raw, n).board.sent| <= |m.board.sent| + 41
  {
    hide Meter.Tick;
    hide FilteredSpeed;
    if n > 0 {
      OneTick(m, raw);
      FirstTick(m, raw, n - 1);
      EventsWhileSettling(m.Tick(raw), raw, n - 1);
    }
  }

  lemma {:induction false} FirstTick(m: Meter, raw: nat, n: nat)
    ensures Ticks(m, raw, n + 1) == Ticks(m.Tick(raw), raw, n)
  {
    hide Meter.Tick;
    if n > 0 {
      FirstTick(m, raw, n - 1);
    }
  }
}
