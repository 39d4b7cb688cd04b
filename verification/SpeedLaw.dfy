/** The speed shown, as a driver and a client can tell it from readings, set speeds and modes alone. */
module SpeedLaw {
  import opened Ports
  import opened VehicleModes
  import opened Boards
  import opened DoorLock
  import opened Lighting
  import opened SpeedSimulator
  import opened BodyEcu
  import opened EcuInvariants
  import opened DoorSafety
  import opened WholeRuns
  import opened DrivingOff
  import Float32

  // ----- The speed that was set -----

  /** A call that sets the speed, with its payload: method 2 of service 0x1003, if no other component has taken it. */
  function SetTo(w: Wiring, i: Input): Option<seq<byte>> {
    match i
    case MethodCall(service, method_, payload) =>
      if HandlerOf(w.methods, service, method_) == Some(Own(0x1003, 2)) && |payload| >= 4 then Some(payload) else None
    case _ => None
  }

  /** Negative numbers and NaN hand the speed back to the pedal, what is above 200 km/h counts as 200. */
  function Fixed(value: Float32.F32): Option<real> {
    match value
    case Finite(x) => if x < 0.0 then None else Some(if x > 200.0 then 200.0 else x)
    case Infinity(negative) => if negative then None else Some(200.0)
    case NaN => None
  }

  /** The speed last set in a run, if it is still in force. */
  function SetSpeed(w: Wiring, run: seq<Input>): Option<real> {
    if run == [] then None
    else
      var payload := SetTo(w, run[|run| - 1]);
      if payload.Some? then Fixed(Float32.Value(Float32.Deserialize(payload.value)))
      else SetSpeed(w, run[..|run| - 1])
  }

  predicate Overridden(override: Float32.F32, speed: Option<real>) {
    match speed
    case None => !override.AtLeast(0.0)
    case Some(x) => override == Float32.Finite(x) && 0.0 <= x <= 200.0
  }

  lemma ClampFixes(value: Float32.F32)
    ensures Overridden(ClampOverride(value), Fixed(value))
  {
  }

  lemma RequestOverride(w: Wiring, s: Ecu, service: uint16, method_: uint16, payload: seq<byte>)
    ensures var call := MethodCall(service, method_, payload);
            Request(w, s, service, method_, payload).0.sim.override ==
            if SetTo(w, call).Some? then ClampOverride(Float32.Value(Float32.Deserialize(payload)))
            else s.sim.override
  {
    hide SetMode;
    hide HandlerOf;
    hide Unsafe;
    hide ClampOverride;
    hide Float32.Value;
    hide Float32.Deserialize;
    if payload != [] {
      SetModeSim(w, s, payload[0]);
    }
  }

  lemma ReportKeeps(m: Meter, speed: Speed)
    ensures m.Report(speed).sim == m.sim.(speed := speed, lastSent := speed)
  {
  }

  lemma TickOverride(m: Meter, raw: int)
    ensures m.Tick(raw).sim.override == m.sim.override
  {
    hide Meter.Report;
    hide FilteredSpeed;
    hide Quantise;
    if m.sim.mode == RUN && m.sim.override.AtLeast(0.0) {
      ReportKeeps(m, if m.sim.override.Finite? then Quantise(m.sim.override.value) else MAX_SPEED);
    } else if m.sim.mode == RUN && raw >= 0 {
      var smoothed := Filter(m.sim.smoothed, DeadZoned(raw));
      ReportKeeps(m.(sim := m.sim.(smoothed := smoothed)), FilteredSpeed(smoothed));
    }
  }

  lemma StepOverride(w: Wiring, s: Ecu, i: Input)
    ensures Step(w, s, i).sim.override ==
            if SetTo(w, i).Some? then ClampOverride(Float32.Value(Float32.Deserialize(SetTo(w, i).value)))
            else s.sim.override
  {
    hide Boot;
    hide IgnitionButton;
    hide CrankTimer;
    hide Request;
    hide Control;
    hide SetMode;
    hide Unsafe;
    hide Meter.Tick;
    hide HandlerOf;
    hide ClampOverride;
    hide Float32.Value;
    hide Float32.Deserialize;
    match i {
      case MethodCall(service, method_, payload) => RequestOverride(w, s, service, method_, payload);
      case DiagnosticRequest(request) =>
        if |request| >= 4 {
          ControlDoor(w, 0, s, Word(request[1], request[2]), request[3..]);
        }
      case SpeedTick(raw) => TickOverride(s.MeterPart(), raw);
      case ModeShutdown => SetModeSim(w, s, OFF);
      case StartButton(slotFree) => IgnitionSim(w, s, slotFree);
      case _ => IgnitionSim(w, s, true);
    }
  }

  /** The simulator's override is the speed last set. */
  lemma {:induction false} OverrideIsSetSpeed(w: Wiring, run: seq<Input>)
    ensures Overridden(After(w, POWERED, run).sim.override, SetSpeed(w, run))
  {
    hide Step;
    hide Float32.Value;
    hide Float32.Deserialize;
    hide HandlerOf;
    if run != [] {
      var before, i := run[..|run| - 1], run[|run| - 1];
      OverrideIsSetSpeed(w, before);
      StepOverride(w, After(w, POWERED, before), i);
      if SetTo(w, i).Some? {
        ClampFixes(Float32.Value(Float32.Deserialize(SetTo(w, i).value)));
      }
    }
  }

  // ----- Ticks -----

  /** The multiple of 5 nearest to a speed, the upper one in the middle. */
  predicate Nearest(speed: int, kmh: real) {
    speed % 5 == 0 && speed as real - 2.5 <= kmh < speed as real + 2.5
  }

  lemma QuantisesNearest(kmh: real)
    requires 0.0 <= kmh <= 200.0
    ensures Nearest(Quantise(kmh), kmh)
  {
    var x := kmh / 5.0;
    assert 0.0 <= x <= 40.0;
    var steps := (x + 0.5).Floor;
    assert steps as real <= x + 0.5 < steps as real + 1.0;
    assert 0 <= steps <= 40;
  }

  /** What a tick in Run makes of the simulator. */
  ghost predicate Ticked(sim: Sim, sim': Sim, speed: Option<real>, raw: int) {
    match speed
    case Some(x) => sim'.smoothed == sim.smoothed && Nearest(sim'.speed, x)
    case None =>
      if raw < 0 then sim' == sim
      else
        && sim'.smoothed == 0.97 * sim.smoothed + 0.03 * Pedal(raw)
        && Nearest(sim'.speed, sim'.smoothed / 4095.0 * 200.0)
  }

  lemma RunTick(m: Meter, speed: Option<real>, raw: int)
    requires m.sim.mode == RUN && Overridden(m.sim.override, speed) && 0.0 <= m.sim.smoothed <= 4095.0
    ensures Ticked(m.sim, m.Tick(raw).sim, speed, raw)
  {
    hide Meter.Report;
    hide Quantise;
    hide Nearest;
    if speed.Some? {
      QuantisesNearest(speed.value);
      ReportKeeps(m, Quantise(speed.value));
    } else if raw >= 0 {
      var smoothed := Filter(m.sim.smoothed, DeadZoned(raw));
      FilterMoves(m.sim.smoothed, raw);
      FilterInRange(m.sim.smoothed, raw);
      QuantisesNearest(smoothed / 4095.0 * 200.0);
      ReportKeeps(m.(sim := m.sim.(smoothed := smoothed)), FilteredSpeed(smoothed));
    }
  }

  lemma FilterInRange(smoothed: real, raw: nat)
    requires 0.0 <= smoothed <= 4095.0
    ensures 0.0 <= Filter(smoothed, DeadZoned(raw)) / 4095.0 * 200.0 <= 200.0
  {
  }

  /** Every tick of every run: the speed set, else the pedal's filtered, to the nearest 5 km/h; 0 outside Run. */
  lemma TickShows(w: Wiring, run: seq<Input>, raw: int)
    ensures var sim, sim' := After(w, POWERED, run).sim, After(w, POWERED, run + [SpeedTick(raw)]).sim;
            if sim.mode == 2 then Ticked(sim, sim', SetSpeed(w, run), raw) else sim'.speed == 0
  {
    hide After;
    hide Meter.Tick;
    hide Ticked;
    hide Overridden;
    hide SetSpeed;
    hide Replay;
    var s := After(w, POWERED, run);
    AlwaysConsistent(w, run);
    OverrideIsSetSpeed(w, run);
    OneMoreStep(w, POWERED, run, SpeedTick(raw));
    if s.sim.mode == RUN {
      RunTick(s.MeterPart(), SetSpeed(w, run), raw);
    } else {
      TickOutsideRun(s.MeterPart(), raw);
    }
  }

  lemma TickOutsideRun(m: Meter, raw: int)
    requires m.sim.mode != RUN
    ensures m.Tick(raw).sim.speed == 0
  {
  }

  // ----- Everything else -----

  lemma NotifyOneSpeed(w: Wiring, o: Observer, s: Ecu, mode: byte)
    ensures NotifyOne(w, o, s, mode).sim.speed == if o == SpeedObserver && mode != RUN then 0 else s.sim.speed
    ensures NotifyOne(w, o, s, mode).sim.mode == if o == SpeedObserver then mode else s.sim.mode
  {
    hide Door.OnModeChanged;
    hide Lamps.OnModeChanged;
  }

  lemma {:induction false} NotifySpeed(w: Wiring, n: nat, s: Ecu, mode: byte)
    requires n <= |w.observers|
    ensures var told := SpeedObserver in w.observers[..n];
            && Notify(w, n, s, mode).sim.speed == (if told && mode != RUN then 0 else s.sim.speed)
            && Notify(w, n, s, mode).sim.mode == (if told then mode else s.sim.mode)
  {
    hide NotifyOne;
    if n > 0 {
      NotifySpeed(w, n - 1, s, mode);
      NotifyOneSpeed(w, w.observers[n - 1], Notify(w, n - 1, s, mode), mode);
    }
  }

  /** Outside Run the speed is 0, and a change of mode that ends in Run leaves it as it is. */
  predicate SpeedKept(a: Sim, b: Sim) {
    b.speed == if b.mode == RUN then a.speed else 0
  }

  lemma SetModeSpeed(w: Wiring, s: Ecu, target: byte)
    requires s.sim.mode != RUN ==> s.sim.speed == 0
    ensures var sim := SetMode(w, s, target).0.sim;
            SpeedKept(s.sim, sim) && (sim.mode == s.sim.mode || sim.mode == target)
  {
    hide Notify;
    NotifySpeed(w, |w.observers|, Announce(s, target), target);
    assert w.observers[..|w.observers|] == w.observers;
  }

  lemma IgnitionSpeed(w: Wiring, s: Ecu, slotFree: bool)
    requires s.sim.mode != RUN ==> s.sim.speed == 0
    ensures SpeedKept(s.sim, Boot(w, s).sim)
    ensures SpeedKept(s.sim, IgnitionButton(w, s, slotFree).sim)
    ensures SpeedKept(s.sim, CrankTimer(w, s).sim)
  {
    hide SetMode;
    SetModeSpeed(w, s, ACCESSORY);
    SetModeSpeed(w, s, CRANK);
    SetModeSpeed(w, SetMode(w, s, CRANK).0, ACCESSORY);
    if s.crankTimers > 0 {
      SetModeSpeed(w, s.(crankTimers := s.crankTimers - 1), RUN);
    }
  }

  lemma RequestSpeed(w: Wiring, s: Ecu, service: uint16, method_: uint16, payload: seq<byte>)
    requires s.sim.mode != RUN ==> s.sim.speed == 0
    ensures SpeedKept(s.sim, Request(w, s, service, method_, payload).0.sim)
  {
    hide SetMode;
    hide HandlerOf;
    hide Unsafe;
    hide ClampOverride;
    if payload != [] {
      SetModeSpeed(w, s, payload[0]);
    }
  }

  lemma StepSpeedKept(w: Wiring, s: Ecu, i: Input)
    requires !i.SpeedTick? && (s.sim.mode != RUN ==> s.sim.speed == 0)
    ensures SpeedKept(s.sim, Step(w, s, i).sim)
  {
    hide Boot;
    hide IgnitionButton;
    hide CrankTimer;
    hide Request;
    hide Control;
    hide SetMode;
    hide Unsafe;
    match i {
      case MethodCall(service, method_, payload) => RequestSpeed(w, s, service, method_, payload);
      case DiagnosticRequest(request) =>
        if |request| >= 4 {
          ControlDoor(w, 0, s, Word(request[1], request[2]), request[3..]);
        }
      case ModeShutdown => SetModeSpeed(w, s, OFF);
      case StartButton(slotFree) => IgnitionSpeed(w, s, slotFree);
      case _ => IgnitionSpeed(w, s, true);
    }
  }

  /** Nothing but a tick changes the speed, except that it is 0 outside Run. */
  lemma OnlyTicksMove(w: Wiring, run: seq<Input>, i: Input)
    requires !i.SpeedTick?
    ensures var sim, sim' := After(w, POWERED, run).sim, After(w, POWERED, run + [i]).sim;
            sim'.speed == if sim'.mode == 2 then sim.speed else 0
  {
    hide Step;
    hide Replay;
    AlwaysConsistent(w, run);
    OneMoreStep(w, POWERED, run, i);
    hide After;
    StepSpeedKept(w, After(w, POWERED, run), i);
  }
}
