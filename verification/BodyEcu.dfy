/**
 * The body ECU as one state machine: five controllers and the diagnostic handler on one board,
 * with a step for every entry point.
 */
module BodyEcu {
  import opened Ports
  import opened VehicleModes
  import opened Boards
  import opened DoorLock
  import opened Lighting
  import opened SpeedSimulator
  import opened Diagnostics
  import opened Float32

  const GET_MODE: uint16 := 0x0001
  const SET_MODE: uint16 := 0x0002

  /** Who is told of a mode change, in the order of registration. */
  datatype Observer = LightingObserver | DoorObserver | SpeedObserver

  /** Who answers diagnostic requests, in the order of registration. */
  datatype Provider = VehicleInfo | LightingProvider | DoorProvider

  /** Who answers a registered method: the controller whose method it names, or the CAN gateway. */
  datatype MethodHandler = Own(service: uint16, method_: uint16) | ToCan

  datatype Registration = Registration(service: uint16, method_: uint16, handler: MethodHandler)

  /** Everything is in the order of registration. */
  datatype Wiring = Wiring(
    lockPin: nat, lightPins: Pins,
    observers: seq<Observer>, providers: seq<Provider>, methods: seq<Registration>,
    vin: seq<byte>, serial: seq<byte>)

  datatype Ecu = Ecu(
    mode: byte, cranking: bool, crankTimers: nat,
    door: LockState, lights: Lights, sim: Sim,
    session: Session, dtcs: seq<Dtc>,
    board: Board)
  {
    function DoorPart(): Door { Door(door, board) }

    function WithDoor(d: Door): Ecu { this.(door := d.state, board := d.board) }

    function LampPart(): Lamps { Lamps(lights, board) }

    function WithLamps(l: Lamps): Ecu { this.(lights := l.on, board := l.board) }

    function MeterPart(): Meter { Meter(sim, board) }

    function WithMeter(m: Meter): Ecu { this.(sim := m.sim, board := m.board) }
  }

  const POWERED := Ecu(OFF, false, 0, Unlocked, [false, false, false], AT_REST, Default, [], POWER_ON)

  // ----- Vehicle mode -----

  function ModeEvent(mode: byte): Message {
    Message(VEHICLE_MODE, EVENT, [mode])
  }

  function NotifyOne(w: Wiring, o: Observer, s: Ecu, mode: byte): Ecu {
    match o
    case LightingObserver => s.WithLamps(s.LampPart().OnModeChanged(w.lightPins, mode))
    case DoorObserver => s.WithDoor(s.DoorPart().OnModeChanged(w.lockPin, mode))
    case SpeedObserver => s.WithMeter(s.MeterPart().OnModeChanged(mode))
  }

  /** Tells the first n observers. */
  function Notify(w: Wiring, n: nat, s: Ecu, mode: byte): Ecu
    requires n <= |w.observers|
  {
    if n == 0 then s else NotifyOne(w, w.observers[n - 1], Notify(w, n - 1, s, mode), mode)
  }

  function Announce(s: Ecu, mode: byte): Ecu {
    s.(mode := mode, board := s.board.Send(ModeEvent(mode)))
  }

  /** Refused off the graph; a change is announced and then passed on to every observer. */
  function SetMode(w: Wiring, s: Ecu, target: byte): (Ecu, bool) {
    if !ValidTransition(s.mode, target) then (s, false)
    else if target == s.mode then (s, true)
    else (Notify(w, |w.observers|, Announce(s, target), target), true)
  }

  // ----- Ignition -----

  function Boot(w: Wiring, s: Ecu): Ecu {
    if s.mode == OFF then SetMode(w, s, ACCESSORY).0 else s
  }

  predicate Rolling(bus: Store) {
    VehicleSpeed in bus && bus[VehicleSpeed].FloatValue? && Value(bus[VehicleSpeed].image).Above(0.0)
  }

  /** The start button. `slotFree` says whether the timer service has a slot for the crank timer. */
  function IgnitionButton(w: Wiring, s: Ecu, slotFree: bool): Ecu {
    if s.cranking then s
    else if s.mode == ACCESSORY then
      var (started, ok) := SetMode(w, s, CRANK);
      if !ok then started
      else if slotFree then started.(cranking := true, crankTimers := started.crankTimers + 1)
      else SetMode(w, started, ACCESSORY).0
    else if s.mode == RUN then
      if Rolling(s.board.bus) then s else SetMode(w, s, ACCESSORY).0
    else s
  }

  /** The crank timer, if one is pending: whether or not Run can be entered, cranking is over. */
  function CrankTimer(w: Wiring, s: Ecu): Ecu {
    if s.crankTimers == 0 then s
    else SetMode(w, s.(crankTimers := s.crankTimers - 1), RUN).0.(cranking := false)
  }

  // ----- SOME/IP methods -----

  datatype Output =
    | Silent
    | Response(kind: byte, code: byte, payload: seq<byte>)
    | Diagnostic(bytes: seq<byte>)

  function Done(ok: bool, payload: seq<byte>): Output {
    Response(0x80, if ok then 0 else 1, payload)
  }

  function NoSuchMethod(payload: seq<byte>): Output {
    Response(0x81, 0x05, payload)
  }

  function LightingRequest(w: Wiring, s: Ecu, method_: uint16, payload: seq<byte>): (Ecu, Output) {
    if method_ == SET_LIGHT_STATE then
      if |payload| < 2 then (s, Done(false, payload))
      else
        var (l, ok) := s.LampPart().Set(w.lightPins, payload[0], payload[1] != 0);
        (s.WithLamps(l), Done(ok, payload))
    else if method_ == GET_LIGHT_STATUS then (s, Done(true, Bytes(s.lights)))
    else (s, NoSuchMethod(payload))
  }

  function DoorRequest(w: Wiring, s: Ecu, method_: uint16, payload: seq<byte>): (Ecu, Output) {
    if method_ == LOCK || method_ == UNLOCK then
      var (d, ok) := s.DoorPart().Actuate(w.lockPin, if method_ == LOCK then Locked else Unlocked);
      (s.WithDoor(d), Done(ok, payload))
    else if method_ == GET_STATUS then (s, Done(true, [Code(s.door)]))
    else (s, NoSuchMethod(payload))
  }

  function ModeRequest(w: Wiring, s: Ecu, method_: uint16, payload: seq<byte>): (Ecu, Output) {
    if method_ == GET_MODE then (s, Done(true, [s.mode]))
    else if method_ == SET_MODE then
      if payload == [] then (s, Done(false, payload))
      else
        var (s', ok) := SetMode(w, s, payload[0]);
        (s', Done(ok, payload))
    else (s, NoSuchMethod(payload))
  }

  function SpeedRequest(w: Wiring, s: Ecu, method_: uint16, payload: seq<byte>): (Ecu, Output) {
    if method_ == GET_SPEED then (s, Done(true, Serialize(Image(s.sim.speed))))
    else if method_ == SET_SPEED then
      var (m, code) := s.MeterPart().SetSpeed(payload);
      (s.WithMeter(m), Response(0x80, code, payload))
    else (s, NoSuchMethod(payload))
  }

  /** A controller's own answer to one of its methods. */
  function Handle(w: Wiring, s: Ecu, service: uint16, method_: uint16, payload: seq<byte>): (Ecu, Output) {
    if service == LIGHTING then LightingRequest(w, s, method_, payload)
    else if service == DOOR_LOCK then DoorRequest(w, s, method_, payload)
    else if service == VEHICLE_MODE then ModeRequest(w, s, method_, payload)
    else if service == SPEED_SENSOR then SpeedRequest(w, s, method_, payload)
    else (s, NoSuchMethod(payload))
  }

  /** The handler registered last for a method. */
  function HandlerOf(methods: seq<Registration>, service: uint16, method_: uint16): Option<MethodHandler> {
    if methods == [] then None
    else
      var r := methods[|methods| - 1];
      if r.service == service && r.method_ == method_ then Some(r.handler)
      else HandlerOf(methods[..|methods| - 1], service, method_)
  }

  function Registered(service: uint16, method_: uint16): Registration {
    Registration(service, method_, Own(service, method_))
  }

  /** What the controllers register. */
  const CONTROLLER_METHODS := [
    Registered(LIGHTING, SET_LIGHT_STATE), Registered(LIGHTING, GET_LIGHT_STATUS),
    Registered(DOOR_LOCK, LOCK), Registered(DOOR_LOCK, UNLOCK), Registered(DOOR_LOCK, GET_STATUS),
    Registered(VEHICLE_MODE, GET_MODE), Registered(VEHICLE_MODE, SET_MODE),
    Registered(SPEED_SENSOR, GET_SPEED), Registered(SPEED_SENSOR, SET_SPEED)]

  /** A request reaches the controller's own method, no other component having taken it over. */
  predicate Reaches(w: Wiring, service: uint16, method_: uint16, own: uint16, ownMethod: uint16) {
    HandlerOf(w.methods, service, method_) == Some(Own(own, ownMethod))
  }

  /** The gateway sends a CAN frame and answers that all is well; a method nobody registered is an error. */
  function Request(w: Wiring, s: Ecu, service: uint16, method_: uint16, payload: seq<byte>): (Ecu, Output) {
    match HandlerOf(w.methods, service, method_)
    case None => (s, NoSuchMethod(payload))
    case Some(ToCan) => (s, Done(true, payload))
    case Some(Own(own, ownMethod)) => Handle(w, s, own, ownMethod, payload)
  }

  // ----- Diagnostics (ISO 14229-1:2013) -----

  const SESSION_CONTROL: byte := 0x10
  const READ_DTC: byte := 0x19
  const READ_DATA: byte := 0x22
  const IO_CONTROL: byte := 0x2F

  const SERVICE_NOT_SUPPORTED: byte := 0x11
  const SUBFUNCTION_NOT_SUPPORTED: byte := 0x12
  const CONDITIONS_NOT_CORRECT: byte := 0x22
  const OUT_OF_RANGE: byte := 0x31

  const VIN_DID: uint16 := 0xF190
  const SERIAL_DID: uint16 := 0xF18C

  function Negative(sid: byte, code: byte): seq<byte> {
    [0x7F, sid, code]
  }

  function ReadOne(w: Wiring, p: Provider, s: Ecu, did: uint16): Option<seq<byte>> {
    match p
    case VehicleInfo =>
      if did == VIN_DID then Some(w.vin)
      else if did == SERIAL_DID && w.serial != [] then Some(w.serial)
      else None
    case LightingProvider => if did == LIGHTING_DID then Some(Bytes(s.lights)) else None
    case DoorProvider => if did == DOOR_DID then Some([Code(s.door)]) else None
  }

  /** The answer of the first provider from position i on that knows the identifier. */
  function ReadData(w: Wiring, i: nat, s: Ecu, did: uint16): Option<seq<byte>>
    requires i <= |w.providers|
    decreases |w.providers| - i
  {
    if i == |w.providers| then None
    else
      var data := ReadOne(w, w.providers[i], s, did);
      if data.Some? then data else ReadData(w, i + 1, s, did)
  }

  function ControlOne(w: Wiring, p: Provider, s: Ecu, did: uint16, param: seq<byte>): (Ecu, bool) {
    match p
    case VehicleInfo => (s, false)
    case LightingProvider =>
      var (l, ok) := s.LampPart().IoControl(w.lightPins, did, param);
      (s.WithLamps(l), ok)
    case DoorProvider =>
      var (d, ok) := s.DoorPart().IoControl(w.lockPin, did, param);
      (s.WithDoor(d), ok)
  }

  /** Offers the control to each provider from position i on until one accepts. */
  function Control(w: Wiring, i: nat, s: Ecu, did: uint16, param: seq<byte>): (Ecu, bool)
    requires i <= |w.providers|
    decreases |w.providers| - i
  {
    if i == |w.providers| then (s, false)
    else
      var (s', ok) := ControlOne(w, w.providers[i], s, did, param);
      if ok then (s', true) else Control(w, i + 1, s', did, param)
  }

  function SessionControl(s: Ecu, request: seq<byte>): (Ecu, seq<byte>) {
    if |request| < 2 then (s, Negative(SESSION_CONTROL, SUBFUNCTION_NOT_SUPPORTED))
    else if request[1] == 0x01 then (s.(session := Default), [0x50, 0x01])
    else if request[1] == 0x03 then (s.(session := Extended), [0x50, 0x03])
    else (s, Negative(SESSION_CONTROL, SUBFUNCTION_NOT_SUPPORTED))
  }

  function IoControl(w: Wiring, s: Ecu, request: seq<byte>): (Ecu, seq<byte>) {
    if s.session != Extended then (s, Negative(IO_CONTROL, CONDITIONS_NOT_CORRECT))
    else if |request| < 4 then (s, Negative(IO_CONTROL, OUT_OF_RANGE))
    else
      var (s', ok) := Control(w, 0, s, Word(request[1], request[2]), request[3..]);
      (s', if ok then [0x6F, request[1], request[2]] else Negative(IO_CONTROL, OUT_OF_RANGE))
  }

  function Uds(w: Wiring, s: Ecu, request: seq<byte>): (Ecu, seq<byte>) {
    if request == [] then (s, Negative(0x00, SERVICE_NOT_SUPPORTED))
    else if request[0] == SESSION_CONTROL then SessionControl(s, request)
    else if request[0] == READ_DATA then
      if |request| < 3 then (s, Negative(READ_DATA, OUT_OF_RANGE))
      else
        var data := ReadData(w, 0, s, Word(request[1], request[2]));
        (s, if data.Some? then [0x62, request[1], request[2]] + data.value else Negative(READ_DATA, OUT_OF_RANGE))
    else if request[0] == IO_CONTROL then IoControl(w, s, request)
    else if request[0] == READ_DTC then
      if |request| < 2 then (s, Negative(READ_DTC, SUBFUNCTION_NOT_SUPPORTED))
      else (s, [0x59, request[1]] + Report(s.dtcs))
    else (s, Negative(request[0], SERVICE_NOT_SUPPORTED))
  }

  // ----- The steps -----

  datatype Input =
    | BootUp
    | StartButton(slotFree: bool)
    | CrankTimerFires
    | DoorButton
    | SpeedTick(raw: int)
    | MethodCall(service: uint16, method_: uint16, payload: seq<byte>)
    | DoorOpenSignal(value: SignalValue)
    | DoorCommandSignal(value: SignalValue)
    | DiagnosticRequest(request: seq<byte>)
    | DoorFault
    | StoreDtc(code: uint32, status: byte)
    | ClearDtcs
    | DoorShutdown
    | LightingShutdown
    | ModeShutdown

  function StepWithOutput(w: Wiring, s: Ecu, i: Input): (Ecu, Output) {
    match i
    case BootUp => (Boot(w, s), Silent)
    case StartButton(slotFree) => (IgnitionButton(w, s, slotFree), Silent)
    case CrankTimerFires => (CrankTimer(w, s), Silent)
    case DoorButton => (s.WithDoor(s.DoorPart().OnButton(w.lockPin)), Silent)
    case SpeedTick(raw) => (s.WithMeter(s.MeterPart().Tick(raw)), Silent)
    case MethodCall(service, method_, payload) => Request(w, s, service, method_, payload)
    case DoorOpenSignal(value) => (s.(board := s.board.Put(DoorIsOpen, value)), Silent)
    case DoorCommandSignal(value) =>
      var s' := s.(board := s.board.Put(DoorCommand, value));
      (s'.WithDoor(s'.DoorPart().OnCommand(w.lockPin, value)), Silent)
    case DiagnosticRequest(request) =>
      var (s', bytes) := Uds(w, s, request);
      (s', Diagnostic(bytes))
    case DoorFault => (s.WithDoor(s.DoorPart().Fail()), Silent)
    case StoreDtc(code, status) => (s.(dtcs := Stored(s.dtcs, code, status)), Silent)
    case ClearDtcs => (s.(dtcs := []), Silent)
    case DoorShutdown => (s.WithDoor(s.DoorPart().Actuate(w.lockPin, Unlocked).0), Silent)
    case LightingShutdown => (s.WithLamps(s.LampPart().AllOff(w.lightPins)), Silent)
    case ModeShutdown => (SetMode(w, s, OFF).0, Silent)
  }

  function Step(w: Wiring, s: Ecu, i: Input): Ecu {
    StepWithOutput(w, s, i).0
  }

  // ----- Single steps, without the others in view -----

  /** The steps that move the door lock only. */
  lemma DoorSteps(w: Wiring, s: Ecu)
    ensures Step(w, s, DoorButton) == s.WithDoor(s.DoorPart().OnButton(w.lockPin))
    ensures Step(w, s, DoorFault) == s.WithDoor(s.DoorPart().Fail())
    ensures Step(w, s, DoorShutdown) == s.WithDoor(s.DoorPart().Actuate(w.lockPin, Unlocked).0)
  {
    hide Door.OnButton;
    hide Door.Fail;
    hide Door.Actuate;
  }

  lemma CommandStep(w: Wiring, s: Ecu, value: SignalValue)
    ensures var s' := s.(board := s.board.Put(DoorCommand, value));
            Step(w, s, DoorCommandSignal(value)) == s'.WithDoor(s'.DoorPart().OnCommand(w.lockPin, value))
  {
    hide Door.OnCommand;
  }

  /** The steps that may change the mode. */
  lemma ModeSteps(w: Wiring, s: Ecu, slotFree: bool)
    ensures Step(w, s, ModeShutdown) == SetMode(w, s, OFF).0
    ensures Step(w, s, BootUp) == Boot(w, s)
    ensures Step(w, s, StartButton(slotFree)) == IgnitionButton(w, s, slotFree)
    ensures Step(w, s, CrankTimerFires) == CrankTimer(w, s)
  {
    hide SetMode;
    hide Boot;
    hide IgnitionButton;
    hide CrankTimer;
  }

  // ----- Runs -----

  /** The state after a run from s. */
  function After(w: Wiring, s: Ecu, run: seq<Input>): Ecu {
    if run == [] then s else Step(w, After(w, s, run[..|run| - 1]), run[|run| - 1])
  }
}
