/** When a moving car is locked, and exactly how it can come to move unlocked. */
module DrivingOff {
  import opened Ports
  import opened VehicleModes
  import opened DoorLock
  import opened Lighting
  import opened SpeedSimulator
  import opened BodyEcu
  import opened EcuInvariants
  import opened DoorSafety
  import opened WholeRuns
  import Float32

  predicate LockedWhileMoving(s: Ecu) {
    s.sim.speed > 5 ==> s.door == Locked
  }

  /** A reading as it counts: nothing within 200 of either end makes a difference. */
  function Pedal(raw: int): real {
    if raw < 200 then 0.0 else if raw > 3895 then 4095.0 else raw as real
  }

  /** What brings a tick above 5 km/h: an override from 7.5 km/h on, or a filter value that scales to as much. */
  predicate Accelerates(sim: Sim, raw: int) {
    if sim.override.AtLeast(0.0) then sim.override.AtLeast(7.5)
    else raw >= 0 && 0.97 * sim.smoothed + 0.03 * Pedal(raw) >= 153.5625
  }

  /** A fault of the lock at speed, or a tick that takes an unlocked car above 5 km/h. */
  predicate Exposes(s: Ecu, i: Input) {
    || (i.DoorFault? && s.sim.speed > 5)
    || (i.SpeedTick? && s.sim.mode == RUN && s.door != Locked && Accelerates(s.sim, i.raw))
  }

  // ----- The speed changes at ticks, and by falling to 0 -----

  /** Filter and override as before; the speed as before or 0. */
  predicate SimKept(a: Sim, b: Sim) {
    b.smoothed == a.smoothed && b.override == a.override && (b.speed == a.speed || b.speed == 0)
  }

  lemma NotifyOneSim(w: Wiring, o: Observer, s: Ecu, mode: byte)
    ensures SimKept(s.sim, NotifyOne(w, o, s, mode).sim)
  {
    hide Door.OnModeChanged;
    hide Lamps.OnModeChanged;
  }

  lemma {:induction false} NotifySim(w: Wiring, n: nat, s: Ecu, mode: byte)
    requires n <= |w.observers|
    ensures SimKept(s.sim, Notify(w, n, s, mode).sim)
  {
    hide NotifyOne;
    if n > 0 {
      NotifySim(w, n - 1, s, mode);
      NotifyOneSim(w, w.observers[n - 1], Notify(w, n - 1, s, mode), mode);
    }
  }

  lemma SetModeSim(w: Wiring, s: Ecu, target: byte)
    ensures SimKept(s.sim, SetMode(w, s, target).0.sim)
  {
    hide Notify;
    NotifySim(w, |w.observers|, Announce(s, target), target);
  }

  lemma IgnitionSim(w: Wiring, s: Ecu, slotFree: bool)
    ensures SimKept(s.sim, Boot(w, s).sim)
    ensures SimKept(s.sim, IgnitionButton(w, s, slotFree).sim)
    ensures SimKept(s.sim, CrankTimer(w, s).sim)
  {
    hide SetMode;
    SetModeSim(w, s, ACCESSORY);
    SetModeSim(w, s, CRANK);
    SetModeSim(w, SetMode(w, s, CRANK).0, ACCESSORY);
    if s.crankTimers > 0 {
      SetModeSim(w, s.(crankTimers := s.crankTimers - 1), RUN);
    }
  }

  lemma RequestSim(w: Wiring, s: Ecu, service: uint16, method_: uint16, payload: seq<byte>)
    ensures var sim := Request(w, s, service, method_, payload).0.sim; sim.speed == s.sim.speed || sim.speed == 0
  {
    hide SetMode;
    hide HandlerOf;
    hide Unsafe;
    hide ClampOverride;
    if payload != [] {
      SetModeSim(w, s, payload[0]);
    }
  }

  lemma StepSpeed(w: Wiring, s: Ecu, i: Input)
    requires !i.SpeedTick?
    ensures Step(w, s, i).sim.speed == s.sim.speed || Step(w, s, i).sim.speed == 0
  {
    hide Boot;
    hide IgnitionButton;
    hide CrankTimer;
    hide Request;
    hide Control;
    hide SetMode;
    hide Unsafe;
    match i {
      case MethodCall(service, method_, payload) => RequestSim(w, s, service, method_, payload);
      case DiagnosticRequest(request) =>
        if |request| >= 4 {
          ControlDoor(w, 0, s, Word(request[1], request[2]), request[3..]);
        }
      case ModeShutdown => SetModeSim(w, s, OFF);
      case StartButton(slotFree) => IgnitionSim(w, s, slotFree);
      case _ => IgnitionSim(w, s, true);
    }
  }

  // ----- Ticks -----

  lemma RoundedAbove(kmh: real)
    ensures Quantise(kmh) > 5 <==> kmh >= 7.5
  {
    var x := kmh / 5.0;
    assert x >= 1.5 <==> kmh >= 7.5;
    assert Round(x) >= 2 <==> x >= 1.5;
  }

  lemma FilterMoves(smoothed: real, raw: nat)
    ensures Filter(smoothed, DeadZoned(raw)) == 0.97 * smoothed + 0.03 * Pedal(raw)
  {
  }

  lemma TickSpeed(m: Meter, raw: int)
    requires m.sim.mode == RUN
    ensures m.Tick(raw).sim.speed > 5 <==>
            Accelerates(m.sim, raw) || (!m.sim.override.AtLeast(0.0) && raw < 0 && m.sim.speed > 5)
  {
    hide Quantise;
    hide Filter;
    if m.sim.override.Finite? {
      RoundedAbove(m.sim.override.value);
    }
    if raw >= 0 {
      var smoothed := Filter(m.sim.smoothed, DeadZoned(raw));
      FilterMoves(m.sim.smoothed, raw);
      assert smoothed / 4095.0 * 200.0 >= 7.5 <==> smoothed >= 153.5625;
      RoundedAbove(smoothed / 4095.0 * 200.0);
    }
  }

  // ----- Every step -----

  lemma MovingUnsafe(w: Wiring, s: Ecu)
    requires Consistent(w, s) && s.sim.speed > 5
    ensures Unsafe(s.board.bus)
  {
    Float32.ImageRoundTrip(s.sim.speed);
    hide Float32.Value;
    hide Float32.Image;
    hide Boards.Replay;
  }

  lemma StillOutsideRun(w: Wiring, s: Ecu)
    requires Consistent(w, s) && s.sim.mode != RUN
    ensures s.sim.speed == 0
  {
  }

  /** A step keeps a moving car locked iff it does not expose it. */
  lemma StepExposes(w: Wiring, s: Ecu, i: Input)
    requires Consistent(w, s) && LockedWhileMoving(s)
    ensures LockedWhileMoving(Step(w, s, i)) <==> !Exposes(s, i)
  {
    hide Consistent;
    hide Unsafe;
    if i.SpeedTick? {
      if s.sim.mode == RUN {
        TickSpeed(s.MeterPart(), i.raw);
      } else {
        hide Meter.Report;
        StillOutsideRun(w, s);
      }
    } else {
      StepSpeed(w, s, i);
      StepDoor(w, s, i);
      if s.sim.speed > 5 {
        MovingUnsafe(w, s);
      }
      if i.DoorFault? {
        hide Permitted;
      } else {
        hide Step;
      }
    }
  }

  // ----- Over runs -----

  /** A moving car is locked throughout a run iff no step of the run exposes it. */
  lemma MovingLocked(w: Wiring, run: seq<Input>)
    ensures Throughout(w, run, LockedWhileMoving) <==> Never(w, run, Exposes)
  {
    hide Step;
    hide Exposes;
    forall before, i
      ensures Exact(w, before, i, LockedWhileMoving, Exposes)
    {
      hide Consistent;
      AlwaysConsistent(w, before);
      var s := After(w, POWERED, before);
      if LockedWhileMoving(s) {
        StepExposes(w, s, i);
      }
    }
    GoodIffNeverBad(w, run, LockedWhileMoving, Exposes);
  }

  // ----- It happens -----

  function FullThrottle(): Input {
    SpeedTick(4095)
  }

  /** Started with the button, unlocked if entering Run has locked it, and driven off. */
  function DriveOff(w: Wiring): seq<Input> {
    Started(w) + [FullThrottle()] + [FullThrottle()]
  }

  function Started(w: Wiring): seq<Input> {
    [BootUp] + [StartButton(true)] + [CrankTimerFires] + if DoorObserver in w.observers then [DoorButton] else []
  }

  /** At rest in mode Run, filter at 0. */
  predicate AtStart(s: Ecu) {
    && s.mode == RUN && s.sim.smoothed == 0.0 && !s.sim.override.AtLeast(0.0) && s.sim.speed == 0
    && DoorIsOpen !in s.board.bus
  }

  lemma CrankedStill(w: Wiring, s: Ecu)
    requires Consistent(w, s) && s.mode != RUN
    ensures Unsafe(s.board.bus) == DoorOpen(s.board.bus) && s.sim.speed == 0
  {
    hide Unsafe;
    hide Boards.Replay;
    StandingStill(w, s);
  }

  lemma Cranked(w: Wiring)
    ensures var s := Step(w, Step(w, Step(w, POWERED, BootUp), StartButton(true)), CrankTimerFires);
            AtStart(s) && s.door == if DoorObserver in w.observers then Locked else Unlocked
  {
    hide Step;
    hide SetMode;
    hide Unsafe;
    hide Consistent;
    var s1 := SetMode(w, POWERED, ACCESSORY).0;
    ModeSteps(w, POWERED, true);
    SetModeDoor(w, POWERED, ACCESSORY);
    SetModeSim(w, POWERED, ACCESSORY);
    var s2 := SetMode(w, s1, CRANK).0;
    SetModeDoor(w, s1, CRANK);
    SetModeSim(w, s1, CRANK);
    PoweredConsistent(w);
    SetModeKeeps(w, POWERED, ACCESSORY);
    SetModeKeeps(w, s1, CRANK);
    ModeSteps(w, s1, true);
    ModeSteps(w, s2.(cranking := true, crankTimers := 1), true);
    var fired := s2.(cranking := true, crankTimers := 0);
    SetModeDoor(w, fired, RUN);
    SetModeSim(w, fired, RUN);
    CrankedStill(w, s2);
  }

  lemma StandingSafe(w: Wiring, s: Ecu)
    requires Consistent(w, s) && s.sim.speed == 0 && DoorIsOpen !in s.board.bus
    ensures !Unsafe(s.board.bus)
  {
    Float32.ImageRoundTrip(0);
    hide Float32.Value;
    hide Float32.Image;
    hide Mirrored;
    hide PinsAgree;
    hide LockSignalled;
  }

  lemma ButtonUnlocks(w: Wiring, s: Ecu)
    requires Consistent(w, s) && AtStart(s) && s.door == Locked
    ensures var s' := Step(w, s, DoorButton); AtStart(s') && s'.door == Unlocked
  {
    hide Consistent;
    hide Step;
    hide Unsafe;
    DoorSteps(w, s);
    StandingSafe(w, s);
  }

  lemma StartedUnlocked(w: Wiring)
    ensures var s := After(w, POWERED, Started(w)); AtStart(s) && s.door == Unlocked
  {
    hide Step;
    hide AtStart;
    assert After(w, POWERED, []) == POWERED;
    OneMoreStep(w, POWERED, [], BootUp);
    assert [] + [BootUp] == [BootUp];
    OneMoreStep(w, POWERED, [BootUp], StartButton(true));
    var run := [BootUp] + [StartButton(true)];
    OneMoreStep(w, POWERED, run, CrankTimerFires);
    hide After;
    Cranked(w);
    if DoorObserver in w.observers {
      OneMoreStep(w, POWERED, run + [CrankTimerFires], DoorButton);
      AlwaysConsistent(w, run + [CrankTimerFires]);
      ButtonUnlocks(w, After(w, POWERED, run + [CrankTimerFires]));
    } else {
      assert run + [CrankTimerFires] + [] == run + [CrankTimerFires];
    }
    hide Consistent;
  }

  lemma TwoTicks(m: Meter)
    requires m.sim.mode == RUN && m.sim.smoothed == 0.0 && !m.sim.override.AtLeast(0.0)
    ensures m.Tick(4095).Tick(4095).sim.speed == 10
  {
    hide Quantise;
    hide Meter.Report;
    var smoothed := Filter(Filter(0.0, 4095), 4095);
    assert smoothed == 242.0145;
    TenKmh(smoothed / 4095.0 * 200.0);
    ReportedSim(m.(sim := m.sim.(smoothed := Filter(0.0, 4095))), FilteredSpeed(Filter(0.0, 4095)));
    ReportedSim(m.Tick(4095).(sim := m.Tick(4095).sim.(smoothed := smoothed)), 10);
  }

  lemma ReportedSim(m: Meter, speed: Speed)
    ensures m.Report(speed).sim == m.sim.(speed := speed, lastSent := speed)
  {
  }

  lemma TenKmh(kmh: real)
    requires 7.5 <= kmh < 12.5
    ensures Quantise(kmh) == 10
  {
    assert 1.5 <= kmh / 5.0 < 2.5;
  }

  /** Moving does not imply locked: a car whose simulator is told of modes can be driven off unlocked, and stays so. */
  lemma MovingUnlocked(w: Wiring)
    requires SpeedObserver in w.observers
    ensures var s := After(w, POWERED, DriveOff(w));
            s.sim.speed == 10 && s.door == Unlocked && Unsafe(s.board.bus)
  {
    hide Unsafe;
    hide Meter.Tick;
    var run := Started(w);
    var s := After(w, POWERED, run);
    StartedUnlocked(w);
    AlwaysConsistent(w, run);
    assert s.sim.mode == RUN;
    TwoTicks(s.MeterPart());
    OneMoreStep(w, POWERED, run, FullThrottle());
    OneMoreStep(w, POWERED, run + [FullThrottle()], FullThrottle());
    AlwaysConsistent(w, DriveOff(w));
    hide Consistent;
    hide After;
    hide Started;
    MovingUnsafe(w, After(w, POWERED, DriveOff(w)));
  }
}
