/** The lights, as an observer can tell them from what was asked and from the vehicle being switched off. */
module LightLaw {
  import opened Ports
  import opened VehicleModes
  import opened Boards
  import opened DoorLock
  import opened Lighting
  import opened SpeedSimulator
  import opened Diagnostics
  import opened BodyEcu
  import opened EcuInvariants
  import opened UdsHistory
  import opened WholeRuns
  import opened DoorSafety
  import opened ModeLaw

  /** The light an input asks for, and how: by call or by diagnostic control. */
  function Asked(w: Wiring, s: Ecu, i: Input): Option<(byte, bool)> {
    match i
    case MethodCall(service, method_, payload) =>
      if HandlerOf(w.methods, service, method_) == Some(Own(0x1000, 1)) && |payload| >= 2 && payload[0] < 3
      then Some((payload[0], payload[1] != 0))
      else None
    case DiagnosticRequest(r) =>
      if && s.session == Extended && LightingProvider in w.providers
         && |r| >= 5 && r[0] == 0x2F && r[1] == 0xF1 && r[2] == 0x00 && r[3] < 3
      then Some((r[3], r[4] != 0))
      else None
    case _ => None
  }

  const DARK: Lights := [false, false, false]

  /** The lights after an input; `switchedOff` says that it leads into mode Off. */
  function NextLights(w: Wiring, s: Ecu, i: Input, switchedOff: bool): Lights {
    match Asked(w, s, i)
    case Some((id, on)) => if id < 3 then s.lights[id := on] else s.lights
    case None => if i.LightingShutdown? || (switchedOff && LightingObserver in w.observers) then DARK else s.lights
  }

  predicate SwitchedOff(s: Ecu, s': Ecu) {
    s.mode != 0 && s'.mode == 0
  }

  lemma SetLights(l: Lamps, pins: Pins, id: byte, on: bool)
    ensures l.Set(pins, id, on).0.on == if id < 3 then l.on[id := on] else l.on
  {
    hide Bytes;
  }

  lemma AllDark(l: Lamps, pins: Pins)
    ensures l.AllOff(pins).on == DARK
  {
    hide Lamps.Set;
    var l1 := l.Set(pins, 0, false).0;
    var l2 := l1.Set(pins, 1, false).0;
    SetLights(l, pins, 0, false);
    SetLights(l1, pins, 1, false);
    SetLights(l2, pins, 2, false);
  }

  lemma NotifyOneLights(w: Wiring, o: Observer, s: Ecu, mode: byte)
    ensures NotifyOne(w, o, s, mode).lights == if o == LightingObserver && mode == OFF then DARK else s.lights
  {
    hide Door.OnModeChanged;
    hide Meter.OnModeChanged;
    hide Lamps.AllOff;
    AllDark(s.LampPart(), w.lightPins);
  }

  lemma {:induction false} NotifyLights(w: Wiring, n: nat, s: Ecu, mode: byte)
    requires n <= |w.observers|
    ensures Notify(w, n, s, mode).lights ==
            if LightingObserver in w.observers[..n] && mode == OFF then DARK else s.lights
  {
    hide NotifyOne;
    if n > 0 {
      NotifyLights(w, n - 1, s, mode);
      NotifyOneLights(w, w.observers[n - 1], Notify(w, n - 1, s, mode), mode);
    }
  }

  lemma SetModeLights(w: Wiring, s: Ecu, target: byte)
    ensures var s' := SetMode(w, s, target).0;
            s'.lights == if SwitchedOff(s, s') && LightingObserver in w.observers then DARK else s.lights
  {
    hide Notify;
    SetModeDoor(w, s, target);
    NotifyLights(w, |w.observers|, Announce(s, target), target);
    assert w.observers[..|w.observers|] == w.observers;
  }

  lemma IgnitionLights(w: Wiring, s: Ecu, slotFree: bool)
    ensures Boot(w, s).lights == s.lights && !SwitchedOff(s, Boot(w, s))
    ensures IgnitionButton(w, s, slotFree).lights == s.lights && !SwitchedOff(s, IgnitionButton(w, s, slotFree))
    ensures CrankTimer(w, s).lights == s.lights && !SwitchedOff(s, CrankTimer(w, s))
  {
    hide SetMode;
    hide Rolling;
    SetModeDoor(w, s, ACCESSORY);
    SetModeDoor(w, s, CRANK);
    SetModeDoor(w, SetMode(w, s, CRANK).0, ACCESSORY);
    SetModeLights(w, s, ACCESSORY);
    SetModeLights(w, s, CRANK);
    SetModeLights(w, SetMode(w, s, CRANK).0, ACCESSORY);
    if s.crankTimers > 0 {
      SetModeDoor(w, s.(crankTimers := s.crankTimers - 1), RUN);
      SetModeLights(w, s.(crankTimers := s.crankTimers - 1), RUN);
    }
  }

  lemma RequestLights(w: Wiring, s: Ecu, service: uint16, method_: uint16, payload: seq<byte>)
    ensures var i, s' := MethodCall(service, method_, payload), Request(w, s, service, method_, payload).0;
            s'.lights == NextLights(w, s, i, SwitchedOff(s, s'))
  {
    hide SetMode;
    hide HandlerOf;
    hide Unsafe;
    hide Lamps.Set;
    hide ClampOverride;
    if |payload| >= 2 {
      SetLights(s.LampPart(), w.lightPins, payload[0], payload[1] != 0);
    }
    if payload != [] {
      SetModeLights(w, s, payload[0]);
    }
  }

  lemma ControlLights(w: Wiring, s: Ecu, request: seq<byte>)
    ensures var i, s' := DiagnosticRequest(request), Uds(w, s, request).0;
            s'.mode == s.mode && s'.lights == NextLights(w, s, i, false)
  {
    hide Unsafe;
    hide Control;
    hide Door.Actuate;
    hide Lamps.Set;
    if |request| >= 4 {
      ControlRoute(w, 0, s, Word(request[1], request[2]), request[3..]);
      assert w.providers[0..] == w.providers;
    }
    if |request| >= 5 {
      assert request[3..][0] == request[3] && request[3..][1] == request[4];
      SetLights(s.LampPart(), w.lightPins, request[3], request[4] != 0);
    }
  }

  lemma StepLights(w: Wiring, s: Ecu, i: Input)
    ensures var s' := Step(w, s, i); s'.lights == NextLights(w, s, i, SwitchedOff(s, s'))
  {
    hide Boot;
    hide IgnitionButton;
    hide CrankTimer;
    hide Request;
    hide Uds;
    hide SetMode;
    hide Meter.Tick;
    hide Unsafe;
    hide HandlerOf;
    hide Lamps.AllOff;
    match i {
      case BootUp => IgnitionLights(w, s, true);
      case StartButton(slotFree) => IgnitionLights(w, s, slotFree);
      case CrankTimerFires => IgnitionLights(w, s, true);
      case MethodCall(service, method_, payload) => RequestLights(w, s, service, method_, payload);
      case DiagnosticRequest(request) => ControlLights(w, s, request);
      case ModeShutdown => SetModeLights(w, s, OFF);
      case LightingShutdown => AllDark(s.LampPart(), w.lightPins);
      case DoorButton =>
      case DoorShutdown =>
      case DoorCommandSignal(_) =>
      case DoorOpenSignal(_) =>
      case SpeedTick(_) =>
      case DoorFault =>
      case StoreDtc(_, _) =>
      case ClearDtcs =>
    }
  }

  /** The lights after any input of any run, and that the pins drive them, where the four pins differ. */
  lemma LightsFollow(w: Wiring, run: seq<Input>, i: Input)
    ensures var s, s' := After(w, POWERED, run), After(w, POWERED, run + [i]);
            && s'.lights == NextLights(w, s, i, SwitchedOff(s, s'))
            && (PinsDisjoint(w.lockPin, w.lightPins) ==> LampsDriven(s'.board.gpio, w.lightPins, s'.lights))
  {
    hide Step;
    hide NextLights;
    OneMoreStep(w, POWERED, run, i);
    AlwaysConsistent(w, run + [i]);
    hide After;
    StepLights(w, After(w, POWERED, run), i);
    hide Replay;
    hide PinsDisjoint;
    hide LampsDriven;
  }

  lemma SetPin(l: Lamps, pins: Pins, id: byte, on: bool)
    requires id < 3
    ensures l.Set(pins, id, on).0.board.gpio == l.board.gpio[pins[id] := on]
  {
    hide Bytes;
  }

  lemma RequestPin(w: Wiring, s: Ecu, service: uint16, method_: uint16, payload: seq<byte>)
    requires Asked(w, s, MethodCall(service, method_, payload)).Some?
    ensures Request(w, s, service, method_, payload).0.board.gpio ==
            s.board.gpio[w.lightPins[payload[0]] := payload[1] != 0]
  {
    hide HandlerOf;
    hide Lamps.Set;
    SetPin(s.LampPart(), w.lightPins, payload[0], payload[1] != 0);
  }

  lemma ControlPin(w: Wiring, s: Ecu, r: seq<byte>)
    requires Asked(w, s, DiagnosticRequest(r)).Some?
    ensures Uds(w, s, r).0.board.gpio == s.board.gpio[w.lightPins[r[3]] := r[4] != 0]
  {
    hide Control;
    hide Lamps.Set;
    ControlRoute(w, 0, s, Word(r[1], r[2]), r[3..]);
    assert w.providers[0..] == w.providers;
    assert r[3..][0] == r[3] && r[3..][1] == r[4];
    SetPin(s.LampPart(), w.lightPins, r[3], r[4] != 0);
  }

  /** Asked for, a light's pin is driven even if the light does not change, and no other pin is. */
  lemma PinDriven(w: Wiring, run: seq<Input>, i: Input)
    requires Asked(w, After(w, POWERED, run), i).Some?
    ensures var s, s' := After(w, POWERED, run), After(w, POWERED, run + [i]);
            var (id, on) := Asked(w, s, i).value;
            id < 3 && s'.board.gpio == s.board.gpio[w.lightPins[id] := on]
  {
    hide Request;
    hide Uds;
    hide HandlerOf;
    OneMoreStep(w, POWERED, run, i);
    hide After;
    if i.MethodCall? {
      RequestPin(w, After(w, POWERED, run), i.service, i.method_, i.payload);
    } else {
      ControlPin(w, After(w, POWERED, run), i.request);
    }
  }

  /** However the car is left, two calls switch it off, and with it all lights, where lighting observes the modes. */
  lemma SwitchingOff(w: Wiring, run: seq<Input>)
    requires Reaches(w, 0x1002, 2, 0x1002, 2) && LightingObserver in w.observers
    ensures var s := After(w, POWERED, run + [SetCall(1)] + [SetCall(0)]); s.mode == 0 && s.lights == DARK
  {
    hide After;
    WayToOff(w, run);
    LightsFollow(w, run + [SetCall(1)], SetCall(0));
  }
}
