/** When the door's lock state may change, over single steps and over whole runs. */
module DoorSafety {
  import opened Ports
  import opened VehicleModes
  import opened Boards
  import opened DoorLock
  import opened Lighting
  import opened SpeedSimulator
  import opened BodyEcu
  import opened EcuInvariants
  import Float32

  /** What a try to lock leaves behind. */
  function Relocked(door: LockState, bus: Store): LockState {
    if door == Unlocked && !Unsafe(bus) then Locked else door
  }

  /** The fields no mode change, light or door operation touches. */
  predicate SameCounters(s: Ecu, s': Ecu) {
    s'.cranking == s.cranking && s'.crankTimers == s.crankTimers && s'.session == s.session && s'.dtcs == s.dtcs
  }

  lemma NotifyOneDoor(w: Wiring, o: Observer, s: Ecu, mode: byte)
    ensures var s' := NotifyOne(w, o, s, mode);
            && SameCounters(s, s') && s'.mode == s.mode
            && Same(s.board.bus, s'.board.bus, DoorIsOpen)
            && (mode == RUN ==> Same(s.board.bus, s'.board.bus, VehicleSpeed))
            && s'.door == if o == DoorObserver && mode == RUN then Relocked(s.door, s.board.bus) else s.door
  {
    hide Float32.Image;
    hide Float32.Value;
    hide Lamps.OnModeChanged;
    LampsLeaveBus(s.LampPart(), w.lightPins, mode);
  }

  lemma LampsLeaveBus(l: Lamps, pins: Pins, mode: byte)
    ensures l.OnModeChanged(pins, mode).board.bus == l.board.bus
  {
    hide Lamps.OnModeChanged;
    LampFrames(l, pins);
    assert LampFrame(pins, l, l.OnModeChanged(pins, mode));
  }

  lemma SafetySame(a: Store, b: Store)
    requires Same(a, b, DoorIsOpen) && Same(a, b, VehicleSpeed)
    ensures Unsafe(a) == Unsafe(b)
  {
  }

  /** Observers are told in any order: the door locks once it is told of Run, and only then. */
  lemma {:induction false} NotifyDoor(w: Wiring, n: nat, s: Ecu, mode: byte)
    requires n <= |w.observers|
    ensures var s' := Notify(w, n, s, mode);
            && SameCounters(s, s') && s'.mode == s.mode
            && Same(s.board.bus, s'.board.bus, DoorIsOpen)
            && (mode == RUN ==> Same(s.board.bus, s'.board.bus, VehicleSpeed))
            && s'.door ==
               if DoorObserver in w.observers[..n] && mode == RUN then Relocked(s.door, s.board.bus) else s.door
  {
    hide NotifyOne;
    hide Unsafe;
    if n > 0 {
      NotifyDoor(w, n - 1, s, mode);
      var told := Notify(w, n - 1, s, mode);
      NotifyOneDoor(w, w.observers[n - 1], told, mode);
      if mode == RUN {
        SafetySame(s.board.bus, told.board.bus);
      }
    }
  }

  lemma SetModeDoor(w: Wiring, s: Ecu, target: byte)
    ensures var (s', ok) := SetMode(w, s, target);
            && SameCounters(s, s') && Same(s.board.bus, s'.board.bus, DoorIsOpen)
            && ok == ValidTransition(s.mode, target)
            && s'.mode == (if ok then target else s.mode)
            && s'.door ==
               if ok && target == RUN && s.mode != RUN && DoorObserver in w.observers
               then Relocked(s.door, s.board.bus) else s.door
  {
    if ValidTransition(s.mode, target) && target != s.mode {
      NotifyDoor(w, |w.observers|, Announce(s, target), target);
      assert w.observers[..|w.observers|] == w.observers;
    }
    hide Unsafe;
  }

  /** The door stays, or moves between Unlocked and Locked in a safe state. */
  predicate Permitted(s: Ecu, s': Ecu) {
    s'.door == s.door || (s.door != Error && s'.door != Error && !Unsafe(s.board.bus))
  }

  lemma ControlOneDoor(w: Wiring, p: Provider, s: Ecu, did: uint16, param: seq<byte>)
    ensures var (s', ok) := ControlOne(w, p, s, did, param);
            && s'.mode == s.mode && s'.sim == s.sim && SameCounters(s, s')
            && Permitted(s, s') && (!ok ==> s' == s)
  {
    hide Unsafe;
  }

  /** A provider that refuses has changed nothing, so at most one provider acts. */
  lemma {:induction false} ControlDoor(w: Wiring, i: nat, s: Ecu, did: uint16, param: seq<byte>)
    requires i <= |w.providers|
    ensures var (s', ok) := Control(w, i, s, did, param);
            && s'.mode == s.mode && s'.sim == s.sim && SameCounters(s, s')
            && Permitted(s, s') && (!ok ==> s' == s)
    decreases |w.providers| - i
  {
    hide ControlOne;
    if i < |w.providers| {
      ControlOneDoor(w, w.providers[i], s, did, param);
      ControlDoor(w, i + 1, s, did, param);
    }
  }

  lemma RequestDoor(w: Wiring, s: Ecu, service: uint16, method_: uint16, payload: seq<byte>)
    ensures Permitted(s, Request(w, s, service, method_, payload).0)
    ensures var s' := Request(w, s, service, method_, payload).0;
            s'.mode != s.mode ==> payload != [] && s' == SetMode(w, s, payload[0]).0
  {
    hide HandlerOf;
    hide Unsafe;
    hide SetMode;
    hide Same;
    if payload != [] {
      SetModeDoor(w, s, payload[0]);
    }
  }

  lemma IgnitionDoor(w: Wiring, s: Ecu, slotFree: bool)
    ensures Boot(w, s).door == s.door && Boot(w, s).mode == (if s.mode == OFF then ACCESSORY else s.mode)
    ensures IgnitionButton(w, s, slotFree).door == s.door
    ensures IgnitionButton(w, s, slotFree).mode == RUN ==> s.mode == RUN
    ensures Permitted(s, CrankTimer(w, s))
  {
    hide SetMode;
    hide Unsafe;
    SetModeDoor(w, s, ACCESSORY);
    SetModeDoor(w, s, CRANK);
    SetModeDoor(w, SetMode(w, s, CRANK).0, ACCESSORY);
    if s.crankTimers > 0 {
      SetModeDoor(w, s.(crankTimers := s.crankTimers - 1), RUN);
    }
  }

  lemma DoorInputs(w: Wiring, s: Ecu, i: Input)
    requires i.DoorButton? || i.DoorShutdown? || i.DoorCommandSignal? || i.DoorOpenSignal? || i.SpeedTick?
    ensures Permitted(s, Step(w, s, i))
    ensures Step(w, s, i).mode == s.mode
  {
    hide Meter.Tick;
    if i.DoorCommandSignal? {
      SafetySame(s.board.bus, s.board.Put(DoorCommand, i.value).bus);
    }
    hide Unsafe;
    hide Board.Send;
  }

  /** Every entry point respects the safety check; only a fault leads into Error, and nothing leads out of it. */
  lemma StepDoor(w: Wiring, s: Ecu, i: Input)
    ensures i != DoorFault ==> Permitted(s, Step(w, s, i))
    ensures i == DoorFault ==> Step(w, s, i).door == Error
  {
    hide Boot;
    hide IgnitionButton;
    hide CrankTimer;
    hide Request;
    hide Control;
    hide SetMode;
    hide Unsafe;
    hide Meter.Tick;
    match i {
      case BootUp => IgnitionDoor(w, s, true);
      case StartButton(slotFree) => IgnitionDoor(w, s, slotFree);
      case CrankTimerFires => IgnitionDoor(w, s, true);
      case MethodCall(service, method_, payload) => RequestDoor(w, s, service, method_, payload);
      case DiagnosticRequest(request) =>
        if |request| >= 4 {
          ControlDoor(w, 0, s, Word(request[1], request[2]), request[3..]);
        }
      case ModeShutdown => SetModeDoor(w, s, OFF);
      case DoorFault =>
      case LightingShutdown =>
      case StoreDtc(_, _) =>
      case ClearDtcs =>
      case _ => DoorInputs(w, s, i);
    }
  }

  // ----- Over runs -----

  /** Whenever an input arrives, the car is faster than 5 km/h or its door is open. */
  ghost predicate UnsafeThroughout(w: Wiring, s: Ecu, run: seq<Input>) {
    forall k :: 0 <= k < |run| ==> Unsafe(After(w, s, run[..k]).board.bus)
  }

  /** As long as it is unsafe, the lock does not move, by whatever way it is asked to; it can only fail. */
  lemma {:induction false} DoorFrozen(w: Wiring, s: Ecu, run: seq<Input>)
    requires UnsafeThroughout(w, s, run)
    ensures DoorFault !in run ==> After(w, s, run).door == s.door
    ensures DoorFault in run ==> After(w, s, run).door == Error
  {
    hide Step;
    hide Unsafe;
    if run != [] {
      var before, last := run[..|run| - 1], run[|run| - 1];
      assert run[..|run| - 1] == before;
      forall k | 0 <= k < |before|
        ensures Unsafe(After(w, s, before[..k]).board.bus)
      {
        assert before[..k] == run[..k];
      }
      DoorFrozen(w, s, before);
      StepDoor(w, After(w, s, before), last);
      assert run == before + [last];
    }
  }

  /** A failed door stays failed. */
  lemma {:induction false} ErrorAbsorbs(w: Wiring, s: Ecu, run: seq<Input>)
    requires s.door == Error
    ensures After(w, s, run).door == Error
  {
    hide Step;
    if run != [] {
      ErrorAbsorbs(w, s, run[..|run| - 1]);
      StepDoor(w, After(w, s, run[..|run| - 1]), run[|run| - 1]);
    }
  }

  // ----- Entering Run -----

  lemma StandingStill(w: Wiring, s: Ecu)
    requires Consistent(w, s) && s.mode != RUN
    ensures Unsafe(s.board.bus) == DoorOpen(s.board.bus)
  {
    Float32.ImageRoundTrip(0);
    hide Float32.Value;
    hide Float32.Image;
  }

  /** Only the setter and the crank timer lead into Run. */
  lemma WaysIntoRun(w: Wiring, s: Ecu, i: Input)
    requires s.mode != RUN && Step(w, s, i).mode == RUN
    ensures Step(w, s, i).door ==
            if DoorObserver in w.observers then Relocked(s.door, s.board.bus) else s.door
  {
    hide Boot;
    hide IgnitionButton;
    hide Request;
    hide Control;
    hide SetMode;
    hide Unsafe;
    hide Meter.Tick;
    match i {
      case BootUp => IgnitionDoor(w, s, true);
      case StartButton(slotFree) => IgnitionDoor(w, s, slotFree);
      case CrankTimerFires =>
        if s.crankTimers > 0 {
          SetModeDoor(w, s.(crankTimers := s.crankTimers - 1), RUN);
        }
      case MethodCall(service, method_, payload) =>
        RequestDoor(w, s, service, method_, payload);
        if payload != [] {
          SetModeDoor(w, s, payload[0]);
        }
      case DiagnosticRequest(request) =>
        if |request| >= 4 {
          ControlDoor(w, 0, s, Word(request[1], request[2]), request[3..]);
        }
      case ModeShutdown => SetModeDoor(w, s, OFF);
      case DoorFault =>
      case LightingShutdown =>
      case StoreDtc(_, _) =>
      case ClearDtcs =>
      case _ => DoorInputs(w, s, i);
    }
  }
}
