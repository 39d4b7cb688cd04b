/** Cranking, its timer and the vehicle mode, under any interleaving of presses, timers and mode requests. */
module IgnitionSafety {
  import opened Ports
  import opened VehicleModes
  import opened Boards
  import opened DoorLock
  import opened SpeedSimulator
  import opened BodyEcu
  import opened EcuInvariants
  import opened DoorSafety
  import opened WholeRuns
  import Float32

  /** Cranking goes with exactly one pending timer. */
  predicate CrankTimed(s: Ecu) {
    s.crankTimers == if s.cranking then 1 else 0
  }

  /** The driver and the mode manager agree about cranking. */
  predicate Aligned(s: Ecu) {
    s.cranking <==> s.mode == CRANK
  }

  /** A mode request that will be accepted and leads into or out of Crank behind the driver's back. */
  predicate Diverts(w: Wiring, s: Ecu, i: Input) {
    && i.MethodCall? && Reaches(w, i.service, i.method_, VEHICLE_MODE, SET_MODE) && i.payload != []
    && ValidTransition(s.mode, i.payload[0])
    && (i.payload[0] == CRANK) != (s.mode == CRANK)
  }

  lemma StartButtonStep(w: Wiring, s: Ecu, slotFree: bool)
    requires CrankTimed(s)
    ensures var s' := IgnitionButton(w, s, slotFree);
            && CrankTimed(s') && (Aligned(s) ==> Aligned(s'))
            && (s.mode == RUN ==> s'.mode == if s.cranking || Rolling(s.board.bus) then RUN else ACCESSORY)
  {
    hide SetMode;
    SetModeDoor(w, s, ACCESSORY);
    SetModeDoor(w, s, CRANK);
    SetModeDoor(w, SetMode(w, s, CRANK).0, ACCESSORY);
  }

  lemma CrankTimerStep(w: Wiring, s: Ecu)
    requires CrankTimed(s)
    ensures var s' := CrankTimer(w, s);
            && CrankTimed(s') && !s'.cranking && (Aligned(s) ==> Aligned(s'))
            && (s.cranking && s.mode == CRANK ==> s'.mode == RUN)
  {
    hide SetMode;
    if s.crankTimers > 0 {
      SetModeDoor(w, s.(crankTimers := s.crankTimers - 1), RUN);
    }
  }

  lemma RequestStep(w: Wiring, s: Ecu, service: uint16, method_: uint16, payload: seq<byte>)
    ensures var s' := Request(w, s, service, method_, payload).0;
            && s'.cranking == s.cranking && s'.crankTimers == s.crankTimers
            && s'.mode == if Reaches(w, service, method_, VEHICLE_MODE, SET_MODE) && payload != [] &&
                             ValidTransition(s.mode, payload[0]) then payload[0] else s.mode
  {
    hide SetMode;
    hide HandlerOf;
    if payload != [] {
      SetModeDoor(w, s, payload[0]);
    }
  }

  /** Every step keeps cranking and its timer together; it keeps driver and mode aligned iff it does not divert. */
  lemma StepIgnition(w: Wiring, s: Ecu, i: Input)
    requires CrankTimed(s)
    ensures CrankTimed(Step(w, s, i))
    ensures Aligned(s) ==> (Aligned(Step(w, s, i)) <==> !Diverts(w, s, i))
  {
    hide Boot;
    hide IgnitionButton;
    hide CrankTimer;
    hide Request;
    hide Control;
    hide SetMode;
    hide Meter.Tick;
    hide Unsafe;
    hide HandlerOf;
    match i {
      case BootUp =>
        IgnitionDoor(w, s, true);
        BootCounters(w, s);
      case StartButton(slotFree) => StartButtonStep(w, s, slotFree);
      case CrankTimerFires => CrankTimerStep(w, s);
      case MethodCall(service, method_, payload) => RequestStep(w, s, service, method_, payload);
      case DiagnosticRequest(request) =>
        if |request| >= 4 {
          ControlDoor(w, 0, s, Word(request[1], request[2]), request[3..]);
        }
      case ModeShutdown => SetModeDoor(w, s, OFF);
      case DoorButton =>
      case DoorShutdown =>
      case DoorCommandSignal(_) =>
      case DoorOpenSignal(_) =>
      case SpeedTick(_) =>
      case DoorFault =>
      case LightingShutdown =>
      case StoreDtc(_, _) =>
      case ClearDtcs =>
    }
  }

  lemma BootCounters(w: Wiring, s: Ecu)
    ensures SameCounters(s, Boot(w, s))
  {
    hide SetMode;
    SetModeDoor(w, s, ACCESSORY);
  }

  /** In every reachable state cranking holds iff exactly one crank timer is pending. */
  lemma {:induction false} AlwaysCrankTimed(w: Wiring, run: seq<Input>)
    ensures CrankTimed(After(w, POWERED, run))
  {
    hide Step;
    if run != [] {
      AlwaysCrankTimed(w, run[..|run| - 1]);
      StepIgnition(w, After(w, POWERED, run[..|run| - 1]), run[|run| - 1]);
    }
  }

  /** Cranking means mode Crank throughout a run iff no step of the run diverts. */
  lemma AlignedUnlessDiverted(w: Wiring, run: seq<Input>)
    ensures Throughout(w, run, Aligned) <==> Never(w, run, (s, i) => Diverts(w, s, i))
  {
    hide Step;
    hide Diverts;
    var diverts := (s, i) => Diverts(w, s, i);
    forall before, i
      ensures Exact(w, before, i, Aligned, diverts)
    {
      AlwaysCrankTimed(w, before);
      StepIgnition(w, After(w, POWERED, before), i);
    }
    GoodIffNeverBad(w, run, Aligned, diverts);
  }

  /** A single accepted request for Crank from Accessory already breaks the alignment. */
  lemma DivertedCrank(w: Wiring)
    requires Reaches(w, VEHICLE_MODE, SET_MODE, VEHICLE_MODE, SET_MODE)
    ensures exists run :: !Aligned(After(w, POWERED, run))
  {
    var booted := After(w, POWERED, [BootUp]);
    var toCrank := MethodCall(VEHICLE_MODE, SET_MODE, [CRANK]);
    var run := [BootUp, toCrank];
    assert [BootUp][..0] == [] && run[..1] == [BootUp];
    assert After(w, POWERED, []) == POWERED;
    hide Step;
    AlwaysCrankTimed(w, [BootUp]);
    IgnitionDoor(w, POWERED, true);
    BootCounters(w, POWERED);
    assert booted == Boot(w, POWERED) by { BootStep(w, POWERED); }
    StepIgnition(w, booted, toCrank);
    assert Diverts(w, booted, toCrank);
    assert !Aligned(After(w, POWERED, run));
  }

  lemma BootStep(w: Wiring, s: Ecu)
    ensures Step(w, s, BootUp) == Boot(w, s)
  {
    hide Boot;
  }

  lemma RollingIsSpeed(w: Wiring, s: Ecu)
    requires Consistent(w, s)
    ensures Rolling(s.board.bus) <==> s.sim.speed > 0
  {
    Float32.ImageRoundTrip(s.sim.speed);
    hide Float32.Value;
    hide Float32.Image;
  }

  /** A press of the start button leaves Run, for Accessory, iff the car stands still and is not being cranked. */
  lemma PressLeavesRun(w: Wiring, run: seq<Input>, slotFree: bool)
    requires After(w, POWERED, run).mode == RUN
    ensures var s, s' := After(w, POWERED, run), After(w, POWERED, run + [StartButton(slotFree)]);
            s'.mode == if s.sim.speed == 0 && !s.cranking then ACCESSORY else RUN
  {
    var s := After(w, POWERED, run);
    assert (run + [StartButton(slotFree)])[..|run|] == run;
    hide IgnitionButton;
    AlwaysConsistent(w, run);
    AlwaysCrankTimed(w, run);
    RollingIsSpeed(w, s);
    StartButtonStep(w, s, slotFree);
    assert After(w, POWERED, run + [StartButton(slotFree)]) == IgnitionButton(w, s, slotFree);
    hide Rolling;
    hide Replay;
  }
}
