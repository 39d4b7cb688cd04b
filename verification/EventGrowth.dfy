/** Events once raised stay raised: every step of the ECU only appends to them. */
module EventGrowth {
  import opened Ports
  import opened VehicleModes
  import opened Boards
  import opened DoorLock
  import opened Lighting
  import opened SpeedSimulator
  import opened BodyEcu
  import Diagnostics

  predicate Grows(a: Board, b: Board) {
    a.sent <= b.sent
  }

  lemma DoorGrows(d: Door, pin: nat)
    ensures forall target | target != Error :: Grows(d.board, d.Actuate(pin, target).0.board)
    ensures Grows(d.board, d.Fail().board) && Grows(d.board, d.OnButton(pin).board)
    ensures forall mode :: Grows(d.board, d.OnModeChanged(pin, mode).board)
    ensures forall value :: Grows(d.board, d.OnCommand(pin, value).board)
    ensures forall did, param :: Grows(d.board, d.IoControl(pin, did, param).0.board)
  {
    hide Unsafe;
  }

  lemma LampsGrow(l: Lamps, pins: Pins)
    ensures forall id, on :: Grows(l.board, l.Set(pins, id, on).0.board)
    ensures Grows(l.board, l.AllOff(pins).board)
    ensures forall mode :: Grows(l.board, l.OnModeChanged(pins, mode).board)
    ensures forall did, param :: Grows(l.board, l.IoControl(pins, did, param).0.board)
  {
    hide Bytes;
    var l1 := l.Set(pins, 0, false).0;
    var l2 := l1.Set(pins, 1, false).0;
    assert Grows(l.board, l1.board) && Grows(l1.board, l2.board);
    assert Grows(l2.board, l.AllOff(pins).board);
  }

  lemma MeterGrows(m: Meter)
    ensures forall mode :: Grows(m.board, m.OnModeChanged(mode).board)
    ensures forall raw :: Grows(m.board, m.Tick(raw).board)
    ensures forall payload :: Grows(m.board, m.SetSpeed(payload).0.board)
  {
  }

  lemma NotifyOneGrows(w: Wiring, o: Observer, s: Ecu, mode: byte)
    ensures Grows(s.board, NotifyOne(w, o, s, mode).board)
  {
    DoorGrows(s.DoorPart(), w.lockPin);
    LampsGrow(s.LampPart(), w.lightPins);
    MeterGrows(s.MeterPart());
    hide Door.OnModeChanged;
    hide Lamps.OnModeChanged;
    hide Meter.OnModeChanged;
  }

  lemma {:induction false} NotifyGrows(w: Wiring, n: nat, s: Ecu, mode: byte)
    requires n <= |w.observers|
    ensures Grows(s.board, Notify(w, n, s, mode).board)
  {
    hide NotifyOne;
    if n > 0 {
      NotifyGrows(w, n - 1, s, mode);
      NotifyOneGrows(w, w.observers[n - 1], Notify(w, n - 1, s, mode), mode);
    }
  }

  lemma SetModeGrows(w: Wiring, s: Ecu, target: byte)
    ensures Grows(s.board, SetMode(w, s, target).0.board)
  {
    hide Notify;
    NotifyGrows(w, |w.observers|, Announce(s, target), target);
  }

  lemma IgnitionGrows(w: Wiring, s: Ecu, slotFree: bool)
    ensures Grows(s.board, Boot(w, s).board)
    ensures Grows(s.board, IgnitionButton(w, s, slotFree).board)
    ensures Grows(s.board, CrankTimer(w, s).board)
  {
    hide SetMode;
    SetModeGrows(w, s, ACCESSORY);
    SetModeGrows(w, s, CRANK);
    SetModeGrows(w, SetMode(w, s, CRANK).0, ACCESSORY);
    if s.crankTimers > 0 {
      SetModeGrows(w, s.(crankTimers := s.crankTimers - 1), RUN);
    }
  }

  lemma ControlOneGrows(w: Wiring, p: Provider, s: Ecu, did: uint16, param: seq<byte>)
    ensures Grows(s.board, ControlOne(w, p, s, did, param).0.board)
  {
    DoorGrows(s.DoorPart(), w.lockPin);
    LampsGrow(s.LampPart(), w.lightPins);
    hide Door.IoControl;
    hide Lamps.IoControl;
  }

  lemma {:induction false} ControlGrows(w: Wiring, i: nat, s: Ecu, did: uint16, param: seq<byte>)
    requires i <= |w.providers|
    ensures Grows(s.board, Control(w, i, s, did, param).0.board)
    decreases |w.providers| - i
  {
    hide ControlOne;
    if i < |w.providers| {
      ControlOneGrows(w, w.providers[i], s, did, param);
      ControlGrows(w, i + 1, ControlOne(w, w.providers[i], s, did, param).0, did, param);
    }
  }

  lemma UdsGrows(w: Wiring, s: Ecu, request: seq<byte>)
    ensures Grows(s.board, Uds(w, s, request).0.board)
  {
    hide Control;
    if s.session == Diagnostics.Extended && |request| >= 4 {
      ControlGrows(w, 0, s, Word(request[1], request[2]), request[3..]);
    }
  }

  lemma RequestGrows(w: Wiring, s: Ecu, service: uint16, method_: uint16, payload: seq<byte>)
    ensures Grows(s.board, Request(w, s, service, method_, payload).0.board)
  {
    hide SetMode;
    hide Door.Actuate;
    hide Lamps.Set;
    hide Meter.SetSpeed;
    hide HandlerOf;
    DoorGrows(s.DoorPart(), w.lockPin);
    LampsGrow(s.LampPart(), w.lightPins);
    MeterGrows(s.MeterPart());
    if payload != [] {
      SetModeGrows(w, s, payload[0]);
    }
  }

  lemma StepGrows(w: Wiring, s: Ecu, i: Input)
    ensures Grows(s.board, Step(w, s, i).board)
  {
    hide Boot;
    hide IgnitionButton;
    hide CrankTimer;
    hide Request;
    hide Uds;
    hide SetMode;
    hide Door.Actuate;
    hide Door.OnButton;
    hide Door.OnCommand;
    hide Door.Fail;
    hide Meter.Tick;
    hide Lamps.AllOff;
    match i {
      case BootUp => IgnitionGrows(w, s, true);
      case StartButton(slotFree) => IgnitionGrows(w, s, slotFree);
      case CrankTimerFires => IgnitionGrows(w, s, true);
      case MethodCall(service, method_, payload) => RequestGrows(w, s, service, method_, payload);
      case DiagnosticRequest(request) => UdsGrows(w, s, request);
      case ModeShutdown => SetModeGrows(w, s, OFF);
      case SpeedTick(raw) => MeterGrows(s.MeterPart());
      case LightingShutdown => LampsGrow(s.LampPart(), w.lightPins);
      case DoorCommandSignal(value) => DoorGrows(s.(board := s.board.Put(DoorCommand, value)).DoorPart(), w.lockPin);
      case _ => DoorGrows(s.DoorPart(), w.lockPin);
    }
  }
}
