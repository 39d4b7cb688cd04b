/** What holds in every reachable state of the body ECU, whatever is wired and whatever happens. */
module EcuInvariants {
  import opened Ports
  import opened VehicleModes
  import opened Boards
  import opened DoorLock
  import opened Lighting
  import opened SpeedSimulator
  import opened BodyEcu
  import opened Float32

  // ----- The invariant -----

  /** Speed shown, speed last sent and speed on the bus agree; the speed is 0 unless the simulator is in Run. */
  predicate Metered(sim: Sim, bus: Store) {
    && sim.speed == sim.lastSent
    && sim.speed % STEP == 0
    && 0.0 <= sim.smoothed <= 4095.0
    && (sim.mode != RUN ==> sim.speed == 0)
    && (if VehicleSpeed in bus then bus[VehicleSpeed] == SpeedSignal(sim.speed) else sim.speed == 0)
  }

  /** The simulator knows the mode if it is told of changes, and stays in Off otherwise. */
  predicate ModesAgree(w: Wiring, s: Ecu) {
    && s.mode <= CRANK
    && s.sim.mode == if SpeedObserver in w.observers then s.mode else OFF
  }

  /** Replaying the events gives back the controllers' states, with nothing out of order on the way. */
  predicate Mirrored(s: Ecu) {
    Replay(s.board.sent) ==
    Mirror(true, Code(s.door), DoorIsLocked in s.board.bus, true, s.mode, true, Bytes(s.lights), true,
           Image(s.sim.lastSent), true)
  }

  /** Once there has been a door event, the bus says whether the door is locked: in Error, that it is not. */
  predicate LockSignalled(door: LockState, bus: Store) {
    DoorIsLocked in bus ==> bus[DoorIsLocked] == BoolValue(door == Locked)
  }

  predicate LampsDriven(gpio: map<nat, bool>, pins: Pins, on: Lights) {
    forall i :: 0 <= i < LIGHT_COUNT ==> Level(gpio, pins[i]) == on[i]
  }

  predicate PinsDisjoint(lockPin: nat, lightPins: Pins) {
    && lockPin !in lightPins
    && lightPins[0] != lightPins[1] && lightPins[0] != lightPins[2] && lightPins[1] != lightPins[2]
  }

  /** The pins show the lights, and the lock unless it has failed. */
  predicate Driven(gpio: map<nat, bool>, lockPin: nat, lightPins: Pins, door: LockState, lights: Lights) {
    && LampsDriven(gpio, lightPins, lights)
    && (door != Error ==> Level(gpio, lockPin) == (door == Locked))
  }

  predicate PinsAgree(w: Wiring, s: Ecu) {
    PinsDisjoint(w.lockPin, w.lightPins) ==> Driven(s.board.gpio, w.lockPin, w.lightPins, s.door, s.lights)
  }

  /** The part that also holds while observers are still being told. */
  predicate Settled(w: Wiring, s: Ecu) {
    Metered(s.sim, s.board.bus) && Mirrored(s) && LockSignalled(s.door, s.board.bus) && PinsAgree(w, s)
  }

  predicate Consistent(w: Wiring, s: Ecu) {
    Settled(w, s) && ModesAgree(w, s)
  }

  // ----- Doors keep it -----

  /** Two stores hold the same at a path, or both nothing. */
  predicate Same(a: Store, b: Store, path: SignalPath) {
    (path in a <==> path in b) && (path in a ==> a[path] == b[path])
  }

  predicate DoorMirrored(d: Door) {
    var m := Replay(d.board.sent);
    && m.door == Code(d.state) && m.doorChained
    && (m.doorTold <==> DoorIsLocked in d.board.bus) && LockSignalled(d.state, d.board.bus)
  }

  /** A door operation touches neither speed nor door position, is told in one chained event, and drives its pin. */
  ghost predicate DoorFrame(pin: nat, d: Door, d': Door) {
    && Same(d.board.bus, d'.board.bus, VehicleSpeed) && Same(d.board.bus, d'.board.bus, DoorIsOpen)
    && (DoorMirrored(d) ==>
        && Replay(d'.board.sent) ==
           Replay(d.board.sent).(door := Code(d'.state), doorTold := DoorIsLocked in d'.board.bus)
        && LockSignalled(d'.state, d'.board.bus))
    && (forall p :: p != pin ==> Level(d'.board.gpio, p) == Level(d.board.gpio, p))
    && ((d.state != Error ==> Level(d.board.gpio, pin) == (d.state == Locked)) ==>
        (d'.state != Error ==> Level(d'.board.gpio, pin) == (d'.state == Locked)))
  }

  lemma ChangeFrame(d: Door, pin: nat, target: LockState)
    requires d.state != target
    ensures target != Error ==> DoorFrame(pin, d, Door(target, d.board.Drive(pin, target == Locked)).Changed(d.state))
    ensures target == Error ==> DoorFrame(pin, d, d.Fail())
  {
    ReplaySend(d.board.sent, Message(DOOR_LOCK, EVENT, [Code(d.state), Code(target)]));
    hide Replay;
  }

  lemma SelfFrame(d: Door, pin: nat)
    ensures DoorFrame(pin, d, d)
    ensures d.state == Error ==> DoorFrame(pin, d, d.Fail())
  {
    ReplaySend(d.board.sent, Message(DOOR_LOCK, EVENT, [Code(Error), Code(Error)]));
    hide Replay;
  }

  lemma RespondFrame(d: Door, d': Door, pin: nat, value: SignalValue)
    requires DoorFrame(pin, d, d')
    ensures DoorFrame(pin, d, d'.(board := d'.board.Put(DoorResponse, value)))
  {
  }

  lemma DoorFrames(d: Door, pin: nat)
    ensures DoorFrame(pin, d, d.Actuate(pin, Locked).0) && DoorFrame(pin, d, d.Actuate(pin, Unlocked).0)
    ensures DoorFrame(pin, d, d.Fail()) && DoorFrame(pin, d, d.OnButton(pin))
    ensures forall mode :: DoorFrame(pin, d, d.OnModeChanged(pin, mode))
    ensures forall value :: DoorFrame(pin, d, d.OnCommand(pin, value))
    ensures forall did, param :: DoorFrame(pin, d, d.IoControl(pin, did, param).0)
  {
    hide DoorFrame;
    hide Board.Send;
    hide Door.Fail;
    hide Door.Changed;
    SelfFrame(d, pin);
    forall target | target != d.state && target != Error
      ensures DoorFrame(pin, d, d.Actuate(pin, target).0)
    {
      ChangeFrame(d, pin, target);
    }
    if d.state != Error {
      ChangeFrame(d, pin, Error);
    }
    hide Door.Actuate;
    forall value: SignalValue | value.BoolValue?
      ensures DoorFrame(pin, d, d.OnCommand(pin, value))
    {
      var (d', ok) := d.Actuate(pin, if value.flag then Locked else Unlocked);
      RespondFrame(d, d', pin, IntValue(if ok then 0 else 1));
    }
  }

  lemma DoorKeeps(w: Wiring, s: Ecu, d: Door)
    requires Settled(w, s) && DoorFrame(w.lockPin, s.DoorPart(), d)
    ensures Settled(w, s.WithDoor(d))
  {
  }

  // ----- Lights keep it -----

  ghost predicate LampFrame(pins: Pins, l: Lamps, l': Lamps) {
    && l'.board.bus == l.board.bus
    && (Replay(l.board.sent).lights == Bytes(l.on) ==>
        Replay(l'.board.sent) == Replay(l.board.sent).(lights := Bytes(l'.on)))
    && (forall p :: p !in pins ==> Level(l'.board.gpio, p) == Level(l.board.gpio, p))
    && (pins[0] != pins[1] && pins[0] != pins[2] && pins[1] != pins[2] && LampsDriven(l.board.gpio, pins, l.on) ==>
        LampsDriven(l'.board.gpio, pins, l'.on))
  }

  lemma SetTold(l: Lamps, pins: Pins, id: byte, on: bool)
    requires Replay(l.board.sent).lights == Bytes(l.on)
    ensures var l' := l.Set(pins, id, on).0;
            Replay(l'.board.sent) == Replay(l.board.sent).(lights := Bytes(l'.on))
  {
    hide Replay;
    hide Bytes;
    if id < LIGHT_COUNT {
      var on' := l.on[id := on];
      ReplaySend(l.board.sent, Message(LIGHTING, EVENT, Bytes(on')));
      BytesDiffer(l.on, id, on);
    }
  }

  lemma BytesDiffer(lights: Lights, id: nat, on: bool)
    requires id < LIGHT_COUNT
    ensures Bytes(lights[id := on]) == Bytes(lights) <==> lights[id] == on
  {
    assert lights[id] == on ==> lights[id := on] == lights;
    assert lights[id] != on ==> Bytes(lights[id := on])[id] != Bytes(lights)[id];
  }

  lemma DriveOne(gpio: map<nat, bool>, pins: Pins, on: Lights, id: nat, state: bool)
    requires id < LIGHT_COUNT
    ensures var gpio' := gpio[pins[id] := state];
            && (forall p :: p !in pins ==> Level(gpio', p) == Level(gpio, p))
            && (pins[0] != pins[1] && pins[0] != pins[2] && pins[1] != pins[2] && LampsDriven(gpio, pins, on) ==>
                LampsDriven(gpio', pins, on[id := state]))
  {
  }

  lemma SetFrame(l: Lamps, pins: Pins, id: byte, on: bool)
    ensures LampFrame(pins, l, l.Set(pins, id, on).0)
  {
    hide Replay;
    hide Bytes;
    hide Level;
    hide LampsDriven;
    if Replay(l.board.sent).lights == Bytes(l.on) {
      SetTold(l, pins, id, on);
    }
    if id < LIGHT_COUNT {
      DriveOne(l.board.gpio, pins, l.on, id, on);
    }
  }

  lemma LampFrameChain(pins: Pins, a: Lamps, b: Lamps, c: Lamps)
    requires LampFrame(pins, a, b) && LampFrame(pins, b, c)
    ensures LampFrame(pins, a, c)
  {
  }

  lemma LampFrameSelf(pins: Pins, l: Lamps)
    ensures LampFrame(pins, l, l)
  {
  }

  lemma LampFrames(l: Lamps, pins: Pins)
    ensures forall id, on :: LampFrame(pins, l, l.Set(pins, id, on).0)
    ensures LampFrame(pins, l, l.AllOff(pins))
    ensures forall mode :: LampFrame(pins, l, l.OnModeChanged(pins, mode))
    ensures forall did, param :: LampFrame(pins, l, l.IoControl(pins, did, param).0)
  {
    hide LampFrame;
    hide Lamps.Set;
    LampFrameSelf(pins, l);
    forall id, on
      ensures LampFrame(pins, l, l.Set(pins, id, on).0)
    {
      SetFrame(l, pins, id, on);
    }
    var l1 := l.Set(pins, 0, false).0;
    var l2 := l1.Set(pins, 1, false).0;
    SetFrame(l1, pins, 1, false);
    SetFrame(l2, pins, 2, false);
    LampFrameChain(pins, l, l1, l2);
    LampFrameChain(pins, l, l2, l.AllOff(pins));
  }

  lemma LampsKeep(w: Wiring, s: Ecu, l: Lamps)
    requires Settled(w, s) && LampFrame(w.lightPins, s.LampPart(), l)
    ensures Settled(w, s.WithLamps(l))
  {
  }

  // ----- The simulator keeps it -----

  /** The simulator drives no pin, and tells each change of speed in one event that is news. */
  predicate MeterFrame(m: Meter, m': Meter) {
    && m'.board.gpio == m.board.gpio && Same(m.board.bus, m'.board.bus, DoorIsLocked)
    && Metered(m'.sim, m'.board.bus)
    && ((Replay(m.board.sent).speed == Image(m.sim.lastSent) && Replay(m.board.sent).speedFresh) ==>
        Replay(m'.board.sent) == Replay(m.board.sent).(speed := Image(m'.sim.lastSent)))
  }

  lemma ReportFrame(m: Meter, speed: Speed)
    ensures m.Report(speed).board.bus == m.board.bus
    ensures m.Report(speed).board.gpio == m.board.gpio
    ensures (Replay(m.board.sent).speed == Image(m.sim.lastSent) && Replay(m.board.sent).speedFresh) ==>
              Replay(m.Report(speed).board.sent) == Replay(m.board.sent).(speed := Image(speed))
  {
    ReplaySend(m.board.sent, SpeedEvent(speed));
    SerializeRoundTrip(Image(speed), Serialize(Image(speed)));
    ImageRoundTrip(speed);
    ImageRoundTrip(m.sim.lastSent);
    hide Image;
    hide Value;
    hide Serialize;
    hide Deserialize;
  }

  lemma ShownFrame(m: Meter, speed: Speed)
    requires 0.0 <= m.sim.smoothed <= 4095.0 && speed % STEP == 0 && (m.sim.mode == RUN || speed == 0)
    ensures MeterFrame(m, m.Report(speed).Show()) && m.Report(speed).Show().sim.mode == m.sim.mode
  {
    ReportFrame(m, speed);
    hide Image;
    hide Replay;
    hide Board.Send;
  }

  lemma TickFrame(m: Meter, raw: int)
    requires Metered(m.sim, m.board.bus)
    ensures MeterFrame(m, m.Tick(raw)) && m.Tick(raw).sim.mode == m.sim.mode
  {
    hide Image;
    hide Replay;
    hide Board.Send;
    hide Meter.Report;
    hide FilteredSpeed;
    if m.sim.mode == RUN && m.sim.override.AtLeast(0.0) {
      ShownFrame(m, if m.sim.override.Finite? then Quantise(m.sim.override.value) else MAX_SPEED);
    } else if m.sim.mode == RUN && raw >= 0 {
      var smoothed := Filter(m.sim.smoothed, DeadZoned(raw));
      FilteredMultiple(smoothed);
      ShownFrame(m.(sim := m.sim.(smoothed := smoothed)), FilteredSpeed(smoothed));
    }
  }

  lemma FilteredMultiple(smoothed: real)
    ensures FilteredSpeed(smoothed) % STEP == 0
  {
  }

  lemma ModeFrame(m: Meter, mode: byte)
    requires Metered(m.sim, m.board.bus)
    ensures MeterFrame(m, m.OnModeChanged(mode)) && m.OnModeChanged(mode).sim.mode == mode
  {
    ShownFrame(m.(sim := m.sim.(mode := mode)), 0);
    hide Image;
    hide Replay;
    hide Meter.Report;
  }

  lemma MeterKeeps(w: Wiring, s: Ecu, m: Meter)
    requires Settled(w, s) && MeterFrame(s.MeterPart(), m)
    ensures Settled(w, s.WithMeter(m))
  {
  }

  // ----- Every step keeps it -----

  lemma NotifyOneKeeps(w: Wiring, o: Observer, s: Ecu, mode: byte)
    requires Settled(w, s)
    ensures var s' := NotifyOne(w, o, s, mode);
            && Settled(w, s')
            && s'.sim.mode == (if o == SpeedObserver then mode else s.sim.mode)
            && s'.mode == s.mode
  {
    DoorFrames(s.DoorPart(), w.lockPin);
    LampFrames(s.LampPart(), w.lightPins);
    ModeFrame(s.MeterPart(), mode);
    DoorKeeps(w, s, s.DoorPart().OnModeChanged(w.lockPin, mode));
    LampsKeep(w, s, s.LampPart().OnModeChanged(w.lightPins, mode));
    MeterKeeps(w, s, s.MeterPart().OnModeChanged(mode));
    hide Door.OnModeChanged;
    hide Lamps.OnModeChanged;
    hide Meter.OnModeChanged;
    hide Settled;
  }

  lemma {:induction false} NotifyKeeps(w: Wiring, n: nat, s: Ecu, mode: byte)
    requires n <= |w.observers| && Settled(w, s)
    ensures var s' := Notify(w, n, s, mode);
            && Settled(w, s')
            && s'.sim.mode == (if SpeedObserver in w.observers[..n] then mode else s.sim.mode)
            && s'.mode == s.mode
  {
    hide NotifyOne;
    hide Settled;
    if n > 0 {
      NotifyKeeps(w, n - 1, s, mode);
      NotifyOneKeeps(w, w.observers[n - 1], Notify(w, n - 1, s, mode), mode);
    }
  }

  lemma AnnounceKeeps(w: Wiring, s: Ecu, mode: byte)
    requires Settled(w, s) && ValidTransition(s.mode, mode) && mode != s.mode
    ensures Settled(w, Announce(s, mode))
  {
    ReplaySend(s.board.sent, ModeEvent(mode));
    hide Image;
  }

  lemma SetModeKeeps(w: Wiring, s: Ecu, target: byte)
    requires Consistent(w, s)
    ensures Consistent(w, SetMode(w, s, target).0)
    ensures SetMode(w, s, target).1 == ValidTransition(s.mode, target)
    ensures SetMode(w, s, target).0.mode == if ValidTransition(s.mode, target) then target else s.mode
  {
    if ValidTransition(s.mode, target) && target != s.mode {
      AnnounceKeeps(w, s, target);
      NotifyKeeps(w, |w.observers|, Announce(s, target), target);
      assert w.observers[..|w.observers|] == w.observers;
    }
    hide Settled;
  }

  lemma ControlOneKeeps(w: Wiring, p: Provider, s: Ecu, did: uint16, param: seq<byte>)
    requires Consistent(w, s)
    ensures Consistent(w, ControlOne(w, p, s, did, param).0)
  {
    DoorFrames(s.DoorPart(), w.lockPin);
    LampFrames(s.LampPart(), w.lightPins);
    DoorKeeps(w, s, s.DoorPart().IoControl(w.lockPin, did, param).0);
    LampsKeep(w, s, s.LampPart().IoControl(w.lightPins, did, param).0);
    hide Door.IoControl;
    hide Lamps.IoControl;
    hide Settled;
  }

  lemma {:induction false} ControlKeeps(w: Wiring, i: nat, s: Ecu, did: uint16, param: seq<byte>)
    requires i <= |w.providers| && Consistent(w, s)
    ensures Consistent(w, Control(w, i, s, did, param).0)
    decreases |w.providers| - i
  {
    hide ControlOne;
    hide Consistent;
    if i < |w.providers| {
      ControlOneKeeps(w, w.providers[i], s, did, param);
      ControlKeeps(w, i + 1, ControlOne(w, w.providers[i], s, did, param).0, did, param);
    }
  }

  lemma UdsKeeps(w: Wiring, s: Ecu, request: seq<byte>)
    requires Consistent(w, s)
    ensures Consistent(w, Uds(w, s, request).0)
  {
    hide Control;
    if s.session == Diagnostics.Extended && |request| >= 4 {
      ControlKeeps(w, 0, s, Word(request[1], request[2]), request[3..]);
    }
  }

  lemma LightingRequestKeeps(w: Wiring, s: Ecu, method_: uint16, payload: seq<byte>)
    requires Consistent(w, s)
    ensures Consistent(w, LightingRequest(w, s, method_, payload).0)
  {
    hide Lamps.Set;
    hide Settled;
    LampFrames(s.LampPart(), w.lightPins);
    if |payload| >= 2 {
      LampsKeep(w, s, s.LampPart().Set(w.lightPins, payload[0], payload[1] != 0).0);
    }
  }

  lemma DoorRequestKeeps(w: Wiring, s: Ecu, method_: uint16, payload: seq<byte>)
    requires Consistent(w, s)
    ensures Consistent(w, DoorRequest(w, s, method_, payload).0)
  {
    hide Door.Actuate;
    hide Settled;
    DoorFrames(s.DoorPart(), w.lockPin);
    DoorKeeps(w, s, s.DoorPart().Actuate(w.lockPin, Locked).0);
    DoorKeeps(w, s, s.DoorPart().Actuate(w.lockPin, Unlocked).0);
  }

  lemma ModeRequestKeeps(w: Wiring, s: Ecu, method_: uint16, payload: seq<byte>)
    requires Consistent(w, s)
    ensures Consistent(w, ModeRequest(w, s, method_, payload).0)
  {
    hide SetMode;
    hide Consistent;
    if payload != [] {
      SetModeKeeps(w, s, payload[0]);
    }
  }

  lemma SpeedRequestKeeps(w: Wiring, s: Ecu, method_: uint16, payload: seq<byte>)
    requires Consistent(w, s)
    ensures Consistent(w, SpeedRequest(w, s, method_, payload).0)
  {
    hide Value;
  }

  lemma HandleKeeps(w: Wiring, s: Ecu, service: uint16, method_: uint16, payload: seq<byte>)
    requires Consistent(w, s)
    ensures Consistent(w, Handle(w, s, service, method_, payload).0)
  {
    hide Consistent;
    hide LightingRequest;
    hide DoorRequest;
    hide ModeRequest;
    hide SpeedRequest;
    LightingRequestKeeps(w, s, method_, payload);
    DoorRequestKeeps(w, s, method_, payload);
    ModeRequestKeeps(w, s, method_, payload);
    SpeedRequestKeeps(w, s, method_, payload);
  }

  lemma RequestKeeps(w: Wiring, s: Ecu, service: uint16, method_: uint16, payload: seq<byte>)
    requires Consistent(w, s)
    ensures Consistent(w, Request(w, s, service, method_, payload).0)
  {
    hide Consistent;
    hide Handle;
    var handler := HandlerOf(w.methods, service, method_);
    if handler.Some? && handler.value.Own? {
      HandleKeeps(w, s, handler.value.service, handler.value.method_, payload);
    }
  }

  lemma CountersKeep(w: Wiring, s: Ecu, cranking: bool, crankTimers: nat)
    requires Consistent(w, s)
    ensures Consistent(w, s.(cranking := cranking, crankTimers := crankTimers))
  {
  }

  lemma IgnitionKeeps(w: Wiring, s: Ecu, slotFree: bool)
    requires Consistent(w, s)
    ensures Consistent(w, Boot(w, s))
    ensures Consistent(w, IgnitionButton(w, s, slotFree))
    ensures Consistent(w, CrankTimer(w, s))
  {
    hide SetMode;
    hide Consistent;
    var starting := SetMode(w, s, CRANK).0;
    SetModeKeeps(w, s, ACCESSORY);
    SetModeKeeps(w, s, CRANK);
    SetModeKeeps(w, starting, ACCESSORY);
    CountersKeep(w, starting, true, starting.crankTimers + 1);
    if s.crankTimers > 0 {
      var fired := s.(crankTimers := s.crankTimers - 1);
      CountersKeep(w, s, s.cranking, s.crankTimers - 1);
      SetModeKeeps(w, fired, RUN);
      var running := SetMode(w, fired, RUN).0;
      CountersKeep(w, running, false, running.crankTimers);
    }
  }

  lemma PutKeeps(w: Wiring, s: Ecu, path: SignalPath, value: SignalValue)
    requires Consistent(w, s) && path != VehicleSpeed && path != DoorIsLocked
    ensures Consistent(w, s.(board := s.board.Put(path, value)))
  {
  }

  lemma DoorStepKeeps(w: Wiring, s: Ecu, i: Input)
    requires Consistent(w, s)
    requires i.DoorButton? || i.DoorFault? || i.DoorShutdown? || i.DoorCommandSignal?
    ensures Consistent(w, Step(w, s, i))
  {
    hide Door.Actuate;
    hide Door.OnButton;
    hide Door.OnCommand;
    hide Door.Fail;
    hide DoorFrame;
    hide Settled;
    var s' := if i.DoorCommandSignal? then s.(board := s.board.Put(DoorCommand, i.value)) else s;
    if i.DoorCommandSignal? {
      PutKeeps(w, s, DoorCommand, i.value);
    }
    DoorFrames(s'.DoorPart(), w.lockPin);
    DoorKeeps(w, s', match i
                     case DoorButton => s'.DoorPart().OnButton(w.lockPin)
                     case DoorFault => s'.DoorPart().Fail()
                     case DoorShutdown => s'.DoorPart().Actuate(w.lockPin, Unlocked).0
                     case DoorCommandSignal(value) => s'.DoorPart().OnCommand(w.lockPin, value));
  }

  lemma StepKeeps(w: Wiring, s: Ecu, i: Input)
    requires Consistent(w, s)
    ensures Consistent(w, Step(w, s, i))
  {
    hide Boot;
    hide IgnitionButton;
    hide CrankTimer;
    hide Request;
    hide Uds;
    hide SetMode;
    hide Meter.Tick;
    hide Lamps.AllOff;
    hide Settled;
    match i {
      case BootUp => IgnitionKeeps(w, s, true);
      case StartButton(slotFree) => IgnitionKeeps(w, s, slotFree);
      case CrankTimerFires => IgnitionKeeps(w, s, true);
      case MethodCall(service, method_, payload) => RequestKeeps(w, s, service, method_, payload);
      case DiagnosticRequest(request) => UdsKeeps(w, s, request);
      case ModeShutdown => SetModeKeeps(w, s, OFF);
      case SpeedTick(raw) =>
        SettledParts(w, s);
        TickFrame(s.MeterPart(), raw);
        MeterKeeps(w, s, s.MeterPart().Tick(raw));
      case LightingShutdown =>
        LampFrames(s.LampPart(), w.lightPins);
        LampsKeep(w, s, s.LampPart().AllOff(w.lightPins));
      case DoorOpenSignal(value) => PutKeeps(w, s, DoorIsOpen, value);
      case StoreDtc(code, status) => DtcsKeep(w, s, Diagnostics.Stored(s.dtcs, code, status));
      case ClearDtcs => DtcsKeep(w, s, []);
      case _ => DoorStepKeeps(w, s, i);
    }
  }

  lemma SettledParts(w: Wiring, s: Ecu)
    requires Settled(w, s)
    ensures Metered(s.sim, s.board.bus)
  {
  }

  lemma DtcsKeep(w: Wiring, s: Ecu, dtcs: seq<Diagnostics.Dtc>)
    requires Consistent(w, s)
    ensures Consistent(w, s.(dtcs := dtcs))
  {
  }

  lemma PoweredConsistent(w: Wiring)
    ensures Consistent(w, POWERED)
  {
    assert Bytes(POWERED.lights) == [0, 0, 0];
  }

  /** In every reachable state, whatever is wired and whatever happens. */
  lemma {:induction false} AlwaysConsistent(w: Wiring, run: seq<Input>)
    ensures Consistent(w, After(w, POWERED, run))
  {
    hide Step;
    hide Consistent;
    if run == [] {
      PoweredConsistent(w);
    } else {
      AlwaysConsistent(w, run[..|run| - 1]);
      StepKeeps(w, After(w, POWERED, run[..|run| - 1]), run[|run| - 1]);
    }
  }
}
