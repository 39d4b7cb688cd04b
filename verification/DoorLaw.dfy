/** The lock, as an observer can tell it from speed, the door position last reported and what was asked. */
module DoorLaw {
  import opened Ports
  import opened VehicleModes
  import opened Boards
  import opened DoorLock
  import opened Lighting
  import opened SpeedSimulator
  import opened Diagnostics
  import opened BodyEcu
  import opened EcuInvariants
  import opened DoorSafety
  import opened UdsHistory
  import opened WholeRuns
  import Float32

  // ----- What the bus says of the door position -----

  /** The last thing reported of the door position. */
  function LastReport(run: seq<Input>): Option<SignalValue> {
    if run == [] then None
    else match run[|run| - 1]
      case DoorOpenSignal(value) => Some(value)
      case _ => LastReport(run[..|run| - 1])
  }

  predicate ReportedOpen(run: seq<Input>) {
    LastReport(run) == Some(BoolValue(true))
  }

  function Reported(bus: Store): Option<SignalValue> {
    if DoorIsOpen in bus then Some(bus[DoorIsOpen]) else None
  }

  lemma IgnitionReport(w: Wiring, s: Ecu, slotFree: bool)
    ensures Same(s.board.bus, Boot(w, s).board.bus, DoorIsOpen)
    ensures Same(s.board.bus, IgnitionButton(w, s, slotFree).board.bus, DoorIsOpen)
    ensures Same(s.board.bus, CrankTimer(w, s).board.bus, DoorIsOpen)
  {
    hide SetMode;
    hide Rolling;
    SetModeDoor(w, s, ACCESSORY);
    SetModeDoor(w, s, CRANK);
    SetModeDoor(w, SetMode(w, s, CRANK).0, ACCESSORY);
    if s.crankTimers > 0 {
      SetModeDoor(w, s.(crankTimers := s.crankTimers - 1), RUN);
    }
  }

  lemma ControlOneReport(w: Wiring, p: Provider, s: Ecu, did: uint16, param: seq<byte>)
    ensures Same(s.board.bus, ControlOne(w, p, s, did, param).0.board.bus, DoorIsOpen)
  {
    hide Door.IoControl;
    hide Lamps.IoControl;
    hide DoorMirrored;
    DoorFrames(s.DoorPart(), w.lockPin);
    LampFrames(s.LampPart(), w.lightPins);
    assert DoorFrame(w.lockPin, s.DoorPart(), s.DoorPart().IoControl(w.lockPin, did, param).0);
    assert LampFrame(w.lightPins, s.LampPart(), s.LampPart().IoControl(w.lightPins, did, param).0);
  }

  lemma ControlReport(w: Wiring, s: Ecu, did: uint16, param: seq<byte>)
    ensures Same(s.board.bus, Control(w, 0, s, did, param).0.board.bus, DoorIsOpen)
  {
    hide ControlOne;
    ControlRoute(w, 0, s, did, param);
    ControlOneReport(w, LightingProvider, s, did, param);
    ControlOneReport(w, DoorProvider, s, did, param);
  }

  lemma RequestReport(w: Wiring, s: Ecu, service: uint16, method_: uint16, payload: seq<byte>)
    ensures Same(s.board.bus, Request(w, s, service, method_, payload).0.board.bus, DoorIsOpen)
  {
    hide SetMode;
    hide HandlerOf;
    hide Unsafe;
    hide ClampOverride;
    if payload != [] {
      SetModeDoor(w, s, payload[0]);
    }
  }

  lemma DoorInputReport(w: Wiring, s: Ecu, i: Input)
    requires i.DoorButton? || i.DoorFault? || i.DoorShutdown? || i.DoorCommandSignal?
    ensures Same(s.board.bus, Step(w, s, i).board.bus, DoorIsOpen)
  {
    hide Door.OnButton;
    hide Door.Fail;
    hide Door.Actuate;
    hide Door.OnCommand;
    hide DoorMirrored;
    var s' := if i.DoorCommandSignal? then s.(board := s.board.Put(DoorCommand, i.value)) else s;
    DoorFrames(s'.DoorPart(), w.lockPin);
    if i.DoorCommandSignal? {
      assert DoorFrame(w.lockPin, s'.DoorPart(), s'.DoorPart().OnCommand(w.lockPin, i.value));
    }
  }

  lemma TickReport(m: Meter, raw: int)
    ensures Same(m.board.bus, m.Tick(raw).board.bus, DoorIsOpen)
  {
    hide FilteredSpeed;
    hide Quantise;
    hide Float32.Image;
  }

  lemma StepReport(w: Wiring, s: Ecu, i: Input)
    ensures i.DoorOpenSignal? ==> Reported(Step(w, s, i).board.bus) == Some(i.value)
    ensures !i.DoorOpenSignal? ==> Same(s.board.bus, Step(w, s, i).board.bus, DoorIsOpen)
  {
    hide Boot;
    hide IgnitionButton;
    hide CrankTimer;
    hide Request;
    hide Control;
    hide SetMode;
    hide Meter.Tick;
    hide Lamps.AllOff;
    match i {
      case BootUp => IgnitionReport(w, s, true);
      case StartButton(slotFree) => IgnitionReport(w, s, slotFree);
      case CrankTimerFires => IgnitionReport(w, s, true);
      case MethodCall(service, method_, payload) => RequestReport(w, s, service, method_, payload);
      case DiagnosticRequest(request) =>
        if |request| >= 4 {
          ControlReport(w, s, Word(request[1], request[2]), request[3..]);
        }
      case ModeShutdown => SetModeDoor(w, s, OFF);
      case SpeedTick(raw) => TickReport(s.MeterPart(), raw);
      case LightingShutdown =>
        LampFrames(s.LampPart(), w.lightPins);
        assert LampFrame(w.lightPins, s.LampPart(), s.LampPart().AllOff(w.lightPins));
      case DoorOpenSignal(_) =>
      case StoreDtc(_, _) =>
      case ClearDtcs =>
      case _ => DoorInputReport(w, s, i);
    }
  }

  lemma {:induction false} BusHasReport(w: Wiring, run: seq<Input>)
    ensures Reported(After(w, POWERED, run).board.bus) == LastReport(run)
  {
    hide Step;
    if run != [] {
      BusHasReport(w, run[..|run| - 1]);
      StepReport(w, After(w, POWERED, run[..|run| - 1]), run[|run| - 1]);
    }
  }

  // ----- When the lock may move -----

  /** Not above 5 km/h, and the door not reported open. */
  predicate Free(w: Wiring, run: seq<Input>) {
    After(w, POWERED, run).sim.speed <= 5 && !ReportedOpen(run)
  }

  lemma SpeedOnBus(w: Wiring, s: Ecu)
    requires Consistent(w, s)
    ensures VehicleSpeed in s.board.bus ==>
              s.board.bus[VehicleSpeed].FloatValue? &&
              Float32.Value(s.board.bus[VehicleSpeed].image) == Float32.Finite(s.sim.speed as real)
    ensures VehicleSpeed !in s.board.bus ==> s.sim.speed == 0
  {
    Float32.ImageRoundTrip(s.sim.speed);
    hide Float32.Value;
    hide Float32.Image;
    hide Replay;
    hide Mirrored;
    hide PinsAgree;
  }

  /** The controller's own check says the same. */
  lemma FreeIsSafe(w: Wiring, run: seq<Input>)
    ensures Free(w, run) <==> !Unsafe(After(w, POWERED, run).board.bus)
  {
    hide Float32.Value;
    hide Consistent;
    AlwaysConsistent(w, run);
    BusHasReport(w, run);
    hide After;
    hide LastReport;
    SpeedOnBus(w, After(w, POWERED, run));
  }

  // ----- What is asked of the lock -----

  /** The state an input asks for, true for locked: by button, call, signal, diagnostic control or shutdown. */
  function Asked(w: Wiring, s: Ecu, i: Input): Option<bool> {
    match i
    case DoorButton => if s.door == Unlocked then Some(true) else if s.door == Locked then Some(false) else None
    case DoorShutdown => Some(false)
    case DoorCommandSignal(value) => if value.BoolValue? then Some(value.flag) else None
    case MethodCall(service, method_, _) =>
      if HandlerOf(w.methods, service, method_) == Some(Own(0x1001, 1)) then Some(true)
      else if HandlerOf(w.methods, service, method_) == Some(Own(0x1001, 2)) then Some(false)
      else None
    case DiagnosticRequest(r) =>
      if && s.session == Extended && DoorProvider in w.providers
         && |r| >= 4 && r[0] == 0x2F && r[1] == 0xF1 && r[2] == 0x01
      then Some(r[3] != 0)
      else None
    case _ => None
  }

  /** The lock after an input, free to move or not. */
  function NextLock(w: Wiring, s: Ecu, i: Input, entersRun: bool, free: bool): LockState {
    if i.DoorFault? then Error
    else if s.door == Error || !free then s.door
    else match Asked(w, s, i)
      case Some(lock) => if lock then Locked else Unlocked
      case None => if entersRun && DoorObserver in w.observers then Locked else s.door
  }

  predicate EntersRun(s: Ecu, s': Ecu) {
    s.mode != 2 && s'.mode == 2
  }

  lemma ActuatedLock(d: Door, pin: nat)
    ensures d.Actuate(pin, Locked).0.state == if d.state == Error || Unsafe(d.board.bus) then d.state else Locked
    ensures d.Actuate(pin, Unlocked).0.state == if d.state == Error || Unsafe(d.board.bus) then d.state else Unlocked
  {
    hide Unsafe;
  }

  lemma RequestLock(w: Wiring, s: Ecu, service: uint16, method_: uint16, payload: seq<byte>)
    ensures var i, s' := MethodCall(service, method_, payload), Request(w, s, service, method_, payload).0;
            s'.door == NextLock(w, s, i, EntersRun(s, s'), !Unsafe(s.board.bus))
  {
    hide SetMode;
    hide HandlerOf;
    hide Unsafe;
    hide Door.Actuate;
    hide ClampOverride;
    ActuatedLock(s.DoorPart(), w.lockPin);
    if payload != [] {
      SetModeDoor(w, s, payload[0]);
    }
  }

  lemma ControlLock(w: Wiring, s: Ecu, request: seq<byte>)
    ensures var i, s' := DiagnosticRequest(request), Uds(w, s, request).0;
            s'.mode == s.mode && s'.door == NextLock(w, s, i, false, !Unsafe(s.board.bus))
  {
    hide Unsafe;
    hide Control;
    hide Door.Actuate;
    hide Lamps.Set;
    ActuatedLock(s.DoorPart(), w.lockPin);
    if |request| >= 4 {
      assert request[3..][0] == request[3];
      ControlRoute(w, 0, s, Word(request[1], request[2]), request[3..]);
      assert w.providers[0..] == w.providers;
    }
  }

  lemma IgnitionLock(w: Wiring, s: Ecu, slotFree: bool)
    ensures Boot(w, s).door == s.door && !EntersRun(s, Boot(w, s))
    ensures IgnitionButton(w, s, slotFree).door == s.door && !EntersRun(s, IgnitionButton(w, s, slotFree))
    ensures var s' := CrankTimer(w, s);
            s'.door == NextLock(w, s, CrankTimerFires, EntersRun(s, s'), !Unsafe(s.board.bus))
  {
    hide SetMode;
    hide Unsafe;
    IgnitionDoor(w, s, slotFree);
    if s.crankTimers > 0 {
      SetModeDoor(w, s.(crankTimers := s.crankTimers - 1), RUN);
    }
  }

  lemma InputLock(w: Wiring, s: Ecu, i: Input)
    requires i.DoorButton? || i.DoorFault? || i.DoorShutdown? || i.DoorCommandSignal?
    ensures Step(w, s, i).mode == s.mode
    ensures Step(w, s, i).door == NextLock(w, s, i, false, !Unsafe(s.board.bus))
  {
    hide Unsafe;
    hide Door.Actuate;
    var s' := if i.DoorCommandSignal? then s.(board := s.board.Put(DoorCommand, i.value)) else s;
    assert Unsafe(s'.board.bus) == Unsafe(s.board.bus) by {
      SafetySame(s.board.bus, s'.board.bus);
    }
    ActuatedLock(s'.DoorPart(), w.lockPin);
  }

  lemma StepLock(w: Wiring, s: Ecu, i: Input)
    ensures var s' := Step(w, s, i); s'.door == NextLock(w, s, i, EntersRun(s, s'), !Unsafe(s.board.bus))
  {
    hide Boot;
    hide IgnitionButton;
    hide CrankTimer;
    hide Request;
    hide Uds;
    hide SetMode;
    hide Meter.Tick;
    hide Unsafe;
    hide HandlerOf;
    match i {
      case BootUp => IgnitionLock(w, s, true);
      case StartButton(slotFree) => IgnitionLock(w, s, slotFree);
      case CrankTimerFires => IgnitionLock(w, s, true);
      case MethodCall(service, method_, payload) => RequestLock(w, s, service, method_, payload);
      case DiagnosticRequest(request) => ControlLock(w, s, request);
      case ModeShutdown => SetModeDoor(w, s, OFF);
      case SpeedTick(_) =>
      case LightingShutdown =>
      case DoorOpenSignal(_) =>
      case StoreDtc(_, _) =>
      case ClearDtcs =>
      case _ => InputLock(w, s, i);
    }
  }

  /**
   * The lock after any input of any run. It obeys whoever asks, and locks when Run is entered, iff it has not
   * failed, the speed is at most 5 km/h and the door was not last reported open; a fault makes it fail.
   */
  lemma LockObeys(w: Wiring, run: seq<Input>, i: Input)
    ensures var s, s' := After(w, POWERED, run), After(w, POWERED, run + [i]);
            s'.door == NextLock(w, s, i, EntersRun(s, s'), Free(w, run))
  {
    hide Step;
    hide NextLock;
    hide Unsafe;
    OneMoreStep(w, POWERED, run, i);
    FreeIsSafe(w, run);
    hide After;
    hide ReportedOpen;
    StepLock(w, After(w, POWERED, run), i);
  }

  // ----- The pin -----

  /** The pin is driven when the lock moves, and otherwise left alone. */
  predicate PinFollows(pin: nat, d: Door, d': Door) {
    d'.board.gpio == if d'.state == d.state then d.board.gpio else d.board.gpio[pin := d'.state == Locked]
  }

  lemma ActuatedPin(d: Door, pin: nat)
    ensures PinFollows(pin, d, d.Actuate(pin, Locked).0) && PinFollows(pin, d, d.Actuate(pin, Unlocked).0)
  {
    hide Unsafe;
  }

  lemma RequestPin(w: Wiring, s: Ecu, service: uint16, method_: uint16, payload: seq<byte>)
    requires Asked(w, s, MethodCall(service, method_, payload)).Some?
    ensures PinFollows(w.lockPin, s.DoorPart(), Request(w, s, service, method_, payload).0.DoorPart())
  {
    hide HandlerOf;
    hide Door.Actuate;
    ActuatedPin(s.DoorPart(), w.lockPin);
  }

  lemma ControlPin(w: Wiring, s: Ecu, r: seq<byte>)
    requires Asked(w, s, DiagnosticRequest(r)).Some?
    ensures PinFollows(w.lockPin, s.DoorPart(), Uds(w, s, r).0.DoorPart())
  {
    hide Control;
    hide Door.Actuate;
    ControlRoute(w, 0, s, Word(r[1], r[2]), r[3..]);
    assert w.providers[0..] == w.providers;
    assert r[3..][0] == r[3];
    ActuatedPin(s.DoorPart(), w.lockPin);
  }

  /** Whoever asks for the lock: its pin follows it. */
  lemma LockPinDriven(w: Wiring, run: seq<Input>, i: Input)
    requires Asked(w, After(w, POWERED, run), i).Some?
    ensures PinFollows(w.lockPin, After(w, POWERED, run).DoorPart(), After(w, POWERED, run + [i]).DoorPart())
  {
    hide Request;
    hide Uds;
    hide HandlerOf;
    hide Door.Actuate;
    OneMoreStep(w, POWERED, run, i);
    hide After;
    var s := After(w, POWERED, run);
    match i {
      case MethodCall(service, method_, payload) => RequestPin(w, s, service, method_, payload);
      case DiagnosticRequest(r) => ControlPin(w, s, r);
      case DoorCommandSignal(value) => ActuatedPin(s.(board := s.board.Put(DoorCommand, value)).DoorPart(), w.lockPin);
      case DoorButton => ActuatedPin(s.DoorPart(), w.lockPin);
      case DoorShutdown => ActuatedPin(s.DoorPart(), w.lockPin);
      case _ => assert false;
    }
  }

  /** Entering Run locks the door, in any order of observers, unless it has failed or was last reported open. */
  lemma EnteringRunLocks(w: Wiring, run: seq<Input>, i: Input)
    requires DoorObserver in w.observers
    requires EntersRun(After(w, POWERED, run), After(w, POWERED, run + [i]))
    ensures var s, s' := After(w, POWERED, run), After(w, POWERED, run + [i]);
            s'.door == Locked <==> s.door == Locked || (s.door == Unlocked && !ReportedOpen(run))
  {
    hide Step;
    hide Unsafe;
    hide Consistent;
    OneMoreStep(w, POWERED, run, i);
    FreeIsSafe(w, run);
    AlwaysConsistent(w, run);
    hide After;
    hide ReportedOpen;
    StillOutsideRun(w, After(w, POWERED, run));
    WaysIntoRun(w, After(w, POWERED, run), i);
  }

  lemma StillOutsideRun(w: Wiring, s: Ecu)
    requires Consistent(w, s) && s.mode != 2
    ensures s.sim.speed == 0
  {
    hide Replay;
  }

  /** While the door was last reported open, the lock can only fail: over any run, whatever is asked. */
  lemma {:induction false} OpenDoorHoldsLock(w: Wiring, run: seq<Input>, more: seq<Input>)
    requires ReportedOpen(run) && forall i :: i in more ==> !i.DoorOpenSignal?
    ensures ReportedOpen(run + more)
    ensures After(w, POWERED, run + more).door == if DoorFault in more then Error else After(w, POWERED, run).door
  {
    hide After;
    if more == [] {
      assert run + more == run;
    } else {
      var before, i := more[..|more| - 1], more[|more| - 1];
      assert more == before + [i] && run + more == run + before + [i];
      OpenDoorHoldsLock(w, run, before);
      LockObeys(w, run + before, i);
      assert (run + before + [i])[..|run + before|] == run + before;
    }
  }
}
