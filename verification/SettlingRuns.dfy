/** The settling time over states the ECU reaches: no better than over all filter states. */
module SettlingRuns {
  import opened SpeedSimulator
  import opened BodyEcu
  import opened EcuInvariants
  import opened WholeRuns
  import opened DrivingOff
  import opened SpeedSettling
  import Boards

  /** After n ticks of any constant reading, from any reachable state in Run without override, the speed has settled. */
  ghost predicate ReachablySettledBy(w: Wiring, n: nat) {
    forall run: seq<Input>, raw: nat ::
      Driving(After(w, POWERED, run).MeterPart()) ==>
        After(w, POWERED, run + Holding(raw, n)).sim.speed == SettledSpeed(raw)
  }

  function Holding(raw: nat, n: nat): seq<Input> {
    if n == 0 then [] else Holding(raw, n - 1) + [SpeedTick(raw)]
  }

  lemma {:induction false} TicksAreSteps(w: Wiring, run: seq<Input>, raw: nat, n: nat)
    ensures After(w, POWERED, run + Holding(raw, n)).MeterPart() == Ticks(After(w, POWERED, run).MeterPart(), raw, n)
  {
    hide After;
    hide Step;
    hide Meter.Tick;
    hide Ecu.MeterPart;
    if n == 0 {
      assert run + [] == run;
    } else {
      TicksAreSteps(w, run, raw, n - 1);
      var before := run + Holding(raw, n - 1);
      assert run + Holding(raw, n) == before + [SpeedTick(raw)];
      OneMoreStep(w, POWERED, before, SpeedTick(raw));
      TickIsStep(w, After(w, POWERED, before), raw);
    }
  }

  lemma TickIsStep(w: Wiring, s: Ecu, raw: nat)
    ensures Step(w, s, SpeedTick(raw)).MeterPart() == s.MeterPart().Tick(raw)
  {
    hide Meter.Tick;
  }

  /** Started, and driven at full throttle for 180 ticks. */
  function AtFullSpeed(w: Wiring): seq<Input> {
    Started(w) + Holding(4095, 180)
  }

  lemma FullSpeed(w: Wiring)
    requires SpeedObserver in w.observers
    ensures var m := After(w, POWERED, AtFullSpeed(w)).MeterPart();
            Driving(m) && m.sim.smoothed >= 4077.97 && m.sim.speed != 25
  {
    hide After;
    hide Started;
    hide Ticks;
    hide Holding;
    hide Driving;
    StartedDriving(w);
    TicksAreSteps(w, Started(w), 4095, 180);
    Accelerated(After(w, POWERED, Started(w)).MeterPart());
  }

  /** 180 ticks at full throttle bring the filter from 0 to 4077.97. */
  lemma Accelerated(m: Meter)
    requires Driving(m) && m.sim.smoothed == 0.0
    ensures var m' := Ticks(m, 4095, 180); Driving(m') && m'.sim.smoothed >= 4077.97 && m'.sim.speed != 25
  {
    hide Ticks;
    hide Decay;
    hide Smoothed;
    TicksFollowFilter(m, 4095, 180);
    FilterError(0.0, 4095, 180);
    Decay180();
    ShownAbove(Smoothed(0.0, 4095, 180));
  }

  lemma StartedDriving(w: Wiring)
    requires SpeedObserver in w.observers
    ensures var m := After(w, POWERED, Started(w)).MeterPart(); Driving(m) && m.sim.smoothed == 0.0
  {
    hide After;
    hide Started;
    hide Boards.Replay;
    StartedUnlocked(w);
    AlwaysConsistent(w, Started(w));
  }

  /** Falling from there to reading 563, a sixteenth below a boundary, takes until tick 360. */
  lemma StillFalling(m: Meter, n: nat)
    requires Driving(m) && m.sim.smoothed >= 4077.97 && m.sim.speed != 25 && n < 360
    ensures Ticks(m, 563, n).sim.speed != SettledSpeed(563)
  {
    hide Ticks;
    hide Decay;
    hide Smoothed;
    SettledSteps(563);
    TicksFollowFilter(m, 563, n);
    FilterError(m.sim.smoothed, 563, n);
    DecayEarly(n);
    Falling(Decay(n), m.sim.smoothed - 563.0);
    if n == 0 {
      NoTicks(m);
    } else {
      ShownAbove(Smoothed(m.sim.smoothed, 563, n));
    }
  }

  lemma Falling(d: real, error: real)
    requires d >= 0.0000178 && error >= 3514.97
    ensures d * error >= 0.0625
  {
    assert d * error >= 0.0000178 * error;
  }

  lemma NoTicks(m: Meter)
    ensures Ticks(m, 563, 0) == m
  {
  }

  /** Where the simulator is told of modes, the settling time over all runs from power-on is exactly 360 ticks too. */
  lemma ReachableSettlingTime(w: Wiring, n: nat)
    requires SpeedObserver in w.observers
    ensures ReachablySettledBy(w, n) <==> n >= 360
  {
    hide After;
    hide Ticks;
    hide Holding;
    hide SettledSpeed;
    if n >= 360 {
      forall run: seq<Input>, raw: nat | Driving(After(w, POWERED, run).MeterPart())
        ensures After(w, POWERED, run + Holding(raw, n)).sim.speed == SettledSpeed(raw)
      {
        TicksAreSteps(w, run, raw, n);
        SettlesIn360(After(w, POWERED, run).MeterPart(), raw, n);
      }
    } else {
      var run := AtFullSpeed(w);
      FullSpeed(w);
      hide AtFullSpeed;
      TicksAreSteps(w, run, 563, n);
      StillFalling(After(w, POWERED, run).MeterPart(), n);
    }
  }
}
