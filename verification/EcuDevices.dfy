/**
 * The controllers that drive others, as objects: mode manager, ignition, diagnostic handler, and the ECU that
 * holds them all. Every method is tied to the step function of the state machine.
 */
module EcuDevices {
  import opened Ports
  import opened VehicleModes
  import opened Boards
  import opened DoorLock
  import opened Lighting
  import opened SpeedSimulator
  import opened Diagnostics
  import opened BodyEcu
  import Float32

  /** The devices everything is wired to. */
  class Devices {
    const bus: SignalBus
    const gpio: GpioPort
    const someip: EventSender
    const timers: TimerService
    const lighting: LightingController
    const door: DoorLockController
    const simulator: Simulator

    constructor (lockPin: nat, lightPins: Pins)
      ensures Valid() && door.pin == lockPin && lighting.pins == lightPins
      ensures fresh(bus) && fresh(gpio) && fresh(someip) && fresh(timers)
      ensures fresh(lighting) && fresh(lighting.states) && fresh(door) && fresh(simulator)
      ensures forall rest :: View(rest) ==
                             rest.(door := Unlocked, lights := [false, false, false], sim := AT_REST, board := POWER_ON)
      ensures timers.pending == 0
    {
      var b := new SignalBus();
      var g := new GpioPort();
      var e := new EventSender();
      bus, gpio, someip := b, g, e;
      timers := new TimerService();
      lighting := new LightingController(b, g, e, lightPins);
      door := new DoorLockController(b, g, e, lockPin);
      simulator := new Simulator(b, g, e);
      b.Subscribe(DoorCommand, DoorCommandHandler);
      assert b.subscribers[DoorCommand] == [DoorCommandHandler];
    }

    ghost predicate Valid()
      reads this, bus
    {
      && lighting.Valid()
      && lighting.bus == bus && lighting.gpio == gpio && lighting.someip == someip
      && door.bus == bus && door.gpio == gpio && door.someip == someip
      && simulator.bus == bus && simulator.gpio == gpio && simulator.someip == someip
      && bus.subscribers == map[DoorCommand := [DoorCommandHandler]]
    }

    /** The parts of the state kept here, laid over the rest. */
    ghost function View(rest: Ecu): Ecu
      requires lighting.Valid()
      reads bus, gpio, someip, lighting.states, door, simulator
    {
      rest.(door := door.state, lights := lighting.states[..],
      sim := Sim(simulator.mode, simulator.currentSpeed, simulator.lastSentSpeed,
                 simulator.smoothedAdc, simulator.speedOverride),
      board := Snapshot(bus, gpio, someip))
    }

    /** Everything a step may write to, the bus subscriptions excepted. */
    ghost function Writable(): set<object> {
      {gpio, someip, lighting.states, door, simulator}
    }
  }

  class VehicleModeManager {
    const devices: Devices
    ghost const w: Wiring
    var mode: byte
    var observers: seq<Observer>

    constructor (devices: Devices, ghost w: Wiring)
      ensures this.devices == devices && this.w == w && mode == OFF && observers == []
    {
      this.devices, this.w := devices, w;
      mode, observers := OFF, [];
    }

    ghost predicate Valid()
      reads this, devices, devices.bus
    {
      && devices.Valid()
      && w.lockPin == devices.door.pin && w.lightPins == devices.lighting.pins && w.observers == observers
    }

    ghost function View(rest: Ecu): Ecu
      requires devices.lighting.Valid()
      reads this, devices.bus, devices.gpio, devices.someip, devices.lighting.states, devices.door, devices.simulator
    {
      devices.View(rest).(mode := mode)
    }

    method AddObserver(o: Observer)
      modifies this`observers
      ensures observers == old(observers) + [o]
    {
      observers := observers + [o];
    }

    method NotifyObservers(newMode: byte, ghost rest: Ecu)
      requires Valid()
      modifies devices.bus`store, devices.Writable()
      ensures Valid()
      ensures View(rest) == Notify(w, |w.observers|, old(View(rest)), newMode)
    {
      for i := 0 to |observers|
        invariant Valid()
        invariant View(rest) == Notify(w, i, old(View(rest)), newMode)
      {
        NotifyObserver(observers[i], newMode, rest);
      }
    }

    method NotifyObserver(o: Observer, newMode: byte, ghost rest: Ecu)
      requires Valid()
      modifies devices.bus`store, devices.Writable()
      ensures Valid()
      ensures View(rest) == NotifyOne(w, o, old(View(rest)), newMode)
    {
      match o
      case LightingObserver => devices.lighting.OnModeChanged(newMode);
      case DoorObserver => devices.door.OnModeChanged(newMode);
      case SpeedObserver => devices.simulator.OnModeChanged(newMode);
    }

    method Change(target: byte, ghost rest: Ecu) returns (ok: bool)
      requires Valid()
      modifies this`mode, devices.bus`store, devices.Writable()
      ensures Valid()
      ensures (View(rest), ok) == SetMode(w, old(View(rest)), target)
    {
      if !ValidTransition(mode, target) {
        return false;
      }
      if target == mode {
        return true;
      }
      mode := target;
      devices.someip.SendEvent(VEHICLE_MODE, EVENT, [mode]);
      NotifyObservers(target, rest);
      return true;
    }
  }

  class IgnitionController {
    const manager: VehicleModeManager
    const devices: Devices
    ghost const w: Wiring
    var cranking: bool

    constructor (manager: VehicleModeManager)
      ensures this.manager == manager && devices == manager.devices && w == manager.w && !cranking
    {
      this.manager, devices, w := manager, manager.devices, manager.w;
      cranking := false;
    }

    ghost predicate Valid()
      reads this, manager, manager.devices, manager.devices.bus
    {
      manager.Valid() && devices == manager.devices && w == manager.w
    }

    ghost function View(rest: Ecu): Ecu
      requires Valid()
      reads this, manager, manager.devices, manager.devices.bus, devices.Writable(), devices.timers
    {
      manager.View(rest).(cranking := cranking, crankTimers := devices.timers.pending)
    }

    method Init(ghost rest: Ecu)
      requires Valid()
      modifies manager`mode, devices.bus`store, devices.Writable()
      ensures Valid()
      ensures View(rest) == Boot(w, old(View(rest)))
    {
      hide SetMode;
      if manager.mode == OFF {
        var _ := manager.Change(ACCESSORY, View(rest));
      }
    }

    function SpeedAboveZero(): (rolling: bool)
      reads this, devices.bus
      ensures rolling == Rolling(devices.bus.store)
    {
      var speed := devices.bus.Get(VehicleSpeed);
      speed.Some? && speed.value.FloatValue? && Float32.Value(speed.value.image).Above(0.0)
    }

    method OnButtonPress(slotFree: bool, ghost rest: Ecu)
      requires Valid()
      modifies this`cranking, manager`mode, devices.bus`store, devices.Writable(), devices.timers
      ensures Valid()
      ensures View(rest) == IgnitionButton(w, old(View(rest)), slotFree)
    {
      hide SetMode;
      hide Rolling;
      if cranking {
        return;
      }
      hide View;
      if manager.mode == ACCESSORY {
        StartCranking(slotFree, rest);
      } else if manager.mode == RUN {
        StopEngine(rest);
      }
    }

    method StartCranking(slotFree: bool, ghost rest: Ecu)
      requires Valid() && !cranking && manager.mode == ACCESSORY
      modifies this`cranking, manager`mode, devices.bus`store, devices.Writable(), devices.timers
      ensures Valid()
      ensures View(rest) == IgnitionButton(w, old(View(rest)), slotFree)
    {
      hide SetMode;
      hide Rolling;
      assert !View(rest).cranking && View(rest).mode == ACCESSORY;
      hide View;
      var started := ChangeMode(CRANK, rest);
      if started {
        var ok := StartTimer(slotFree, rest);
        if !ok {
          var _ := ChangeMode(ACCESSORY, rest);
        }
      }
    }

    method ChangeMode(target: byte, ghost rest: Ecu) returns (ok: bool)
      requires Valid()
      modifies manager`mode, devices.bus`store, devices.Writable()
      ensures Valid()
      ensures (View(rest), ok) == SetMode(w, old(View(rest)), target)
    {
      hide SetMode;
      ok := manager.Change(target, View(rest));
    }

    /** Without a free timer the driver is not left cranking. */
    method StartTimer(slotFree: bool, ghost rest: Ecu) returns (ok: bool)
      requires Valid() && !cranking
      modifies this`cranking, devices.timers
      ensures Valid() && ok == slotFree
      ensures var before := old(View(rest));
              View(rest) == if ok then before.(cranking := true, crankTimers := before.crankTimers + 1) else before
    {
      cranking := true;
      ok := devices.timers.StartOneShot(slotFree);
      if !ok {
        cranking := false;
      }
    }

    method StopEngine(ghost rest: Ecu)
      requires Valid() && !cranking && manager.mode == RUN
      modifies manager`mode, devices.bus`store, devices.Writable()
      ensures Valid()
      ensures forall slotFree :: View(rest) == IgnitionButton(w, old(View(rest)), slotFree)
    {
      hide SetMode;
      hide Rolling;
      if !SpeedAboveZero() {
        var _ := ChangeMode(ACCESSORY, rest);
      }
    }

    /** What the crank timer calls; nothing happens if none is pending. */
    method OnCrankTimer(ghost rest: Ecu)
      requires Valid()
      modifies this`cranking, manager`mode, devices.bus`store, devices.Writable(), devices.timers
      ensures Valid()
      ensures View(rest) == CrankTimer(w, old(View(rest)))
    {
      hide SetMode;
      if devices.timers.pending > 0 {
        devices.timers.pending := devices.timers.pending - 1;
        assert View(rest) == old(View(rest)).(crankTimers := old(View(rest)).crankTimers - 1);
        EnterRun(rest);
      }
    }

    method EnterRun(ghost rest: Ecu)
      requires Valid()
      modifies this`cranking, manager`mode, devices.bus`store, devices.Writable()
      ensures Valid()
      ensures View(rest) == SetMode(w, old(View(rest)), RUN).0.(cranking := false)
    {
      hide SetMode;
      var _ := manager.Change(RUN, View(rest));
      cranking := false;
    }
  }

  class UdsServiceHandler {
    const devices: Devices
    const store: DtcStore
    const vin: seq<byte>
    const serial: seq<byte>
    ghost const w: Wiring
    var providers: seq<Provider>
    var session: Session

    constructor (devices: Devices, store: DtcStore, vin: seq<byte>, serial: seq<byte>, ghost w: Wiring)
      ensures this.devices == devices && this.store == store && this.vin == vin && this.serial == serial && this.w == w
      ensures providers == [] && session == Default
    {
      this.devices, this.store, this.vin, this.serial, this.w := devices, store, vin, serial, w;
      providers, session := [], Default;
    }

    ghost predicate Valid()
      reads this, devices, devices.bus
    {
      && devices.Valid()
      && w.lockPin == devices.door.pin && w.lightPins == devices.lighting.pins
      && w.providers == providers && w.vin == vin && w.serial == serial
    }

    ghost function View(rest: Ecu): Ecu
      requires devices.lighting.Valid()
      reads this, devices.bus, devices.Writable(), store
    {
      devices.View(rest).(session := session, dtcs := store.dtcs)
    }

    method AddProvider(p: Provider)
      modifies this`providers
      ensures providers == old(providers) + [p]
    {
      providers := providers + [p];
    }

    method ReadFrom(p: Provider, did: uint16, ghost rest: Ecu) returns (data: Option<seq<byte>>)
      requires Valid()
      ensures data == ReadOne(w, p, View(rest), did)
    {
      match p
      case VehicleInfo =>
        data := if did == VIN_DID then Some(vin) else if did == SERIAL_DID && serial != [] then Some(serial) else None;
      case LightingProvider =>
        if did == LIGHTING_DID {
          var bytes := devices.lighting.Payload();
          data := Some(bytes);
        } else {
          data := None;
        }
      case DoorProvider =>
        data := if did == DOOR_DID then Some([Code(devices.door.state)]) else None;
    }

    method HandleReadData(request: seq<byte>, ghost rest: Ecu) returns (response: seq<byte>)
      requires Valid() && request != [] && request[0] == READ_DATA
      ensures (View(rest), response) == Uds(w, View(rest), request)
    {
      if |request| < 3 {
        return Negative(READ_DATA, OUT_OF_RANGE);
      }
      var did := Word(request[1], request[2]);
      for i := 0 to |providers|
        invariant ReadData(w, 0, View(rest), did) == ReadData(w, i, View(rest), did)
      {
        var data := ReadFrom(providers[i], did, rest);
        if data.Some? {
          return [0x62, request[1], request[2]] + data.value;
        }
      }
      return Negative(READ_DATA, OUT_OF_RANGE);
    }

    method ControlAt(p: Provider, did: uint16, param: seq<byte>, ghost rest: Ecu) returns (ok: bool)
      requires Valid()
      modifies devices.bus`store, devices.Writable()
      ensures Valid()
      ensures (View(rest), ok) == ControlOne(w, p, old(View(rest)), did, param)
    {
      match p
      case VehicleInfo => ok := false;
      case LightingProvider => ok := devices.lighting.IoControl(did, param);
      case DoorProvider => ok := devices.door.IoControl(did, param);
    }

    method HandleIoControl(request: seq<byte>, ghost rest: Ecu) returns (response: seq<byte>)
      requires Valid() && request != [] && request[0] == IO_CONTROL
      modifies devices.bus`store, devices.Writable()
      ensures Valid()
      ensures (View(rest), response) == IoControl(w, old(View(rest)), request)
    {
      hide ControlOne;
      hide Negative;
      if session != Extended {
        return Negative(IO_CONTROL, CONDITIONS_NOT_CORRECT);
      }
      if |request| < 4 {
        return Negative(IO_CONTROL, OUT_OF_RANGE);
      }
      var did := Word(request[1], request[2]);
      var param := request[3..];
      for i := 0 to |providers|
        invariant Valid() && session == Extended
        invariant Control(w, 0, old(View(rest)), did, param) == Control(w, i, View(rest), did, param)
      {
        var ok := ControlAt(providers[i], did, param, rest);
        if ok {
          return [0x6F, request[1], request[2]];
        }
      }
      return Negative(IO_CONTROL, OUT_OF_RANGE);
    }

    method HandleSessionControl(request: seq<byte>, ghost rest: Ecu) returns (response: seq<byte>)
      requires Valid()
      modifies this`session
      ensures Valid()
      ensures (View(rest), response) == SessionControl(old(View(rest)), request)
    {
      if |request| < 2 {
        return Negative(SESSION_CONTROL, SUBFUNCTION_NOT_SUPPORTED);
      }
      if request[1] == 0x01 {
        session := Default;
      } else if request[1] == 0x03 {
        session := Extended;
      } else {
        return Negative(SESSION_CONTROL, SUBFUNCTION_NOT_SUPPORTED);
      }
      return [0x50, request[1]];
    }

    method HandleReadDtc(request: seq<byte>) returns (response: seq<byte>)
      ensures response ==
              if |request| < 2 then Negative(READ_DTC, SUBFUNCTION_NOT_SUPPORTED)
              else [0x59, request[1]] + Report(store.dtcs)
    {
      if |request| < 2 {
        return Negative(READ_DTC, SUBFUNCTION_NOT_SUPPORTED);
      }
      response := [0x59, request[1]];
      var dtcs := store.dtcs;
      for i := 0 to |dtcs|
        invariant response == [0x59, request[1]] + Report(dtcs[..i])
      {
        assert dtcs[..i + 1][..i] == dtcs[..i];
        response := response + Record(dtcs[i]);
      }
      assert dtcs[..|dtcs|] == dtcs;
    }

    method HandleRequest(request: seq<byte>, ghost rest: Ecu) returns (response: seq<byte>)
      requires Valid()
      modifies this`session, devices.bus`store, devices.Writable()
      ensures Valid()
      ensures (View(rest), response) == Uds(w, old(View(rest)), request)
    {
      if request == [] {
        return Negative(0x00, SERVICE_NOT_SUPPORTED);
      }
      if request[0] == SESSION_CONTROL {
        response := HandleSessionControl(request, rest);
      } else if request[0] == READ_DATA {
        response := HandleReadData(request, rest);
      } else if request[0] == IO_CONTROL {
        response := HandleIoControl(request, rest);
      } else if request[0] == READ_DTC {
        response := HandleReadDtc(request);
      } else {
        return Negative(request[0], SERVICE_NOT_SUPPORTED);
      }
    }
  }

  /** The registered methods, by service and method; registering one again replaces its handler. */
  class MethodTable {
    var handlers: map<(uint16, uint16), MethodHandler>

    constructor ()
      ensures Holds([])
    {
      handlers := map[];
    }

    function Find(service: uint16, method_: uint16): Option<MethodHandler>
      reads this
    {
      if (service, method_) in handlers then Some(handlers[(service, method_)]) else None
    }

    /** The table finds what a scan of the registrations from the last one would find. */
    ghost predicate Holds(methods: seq<Registration>)
      reads this
    {
      forall service, method_ :: Find(service, method_) == HandlerOf(methods, service, method_)
    }

    method RegisterMethod(r: Registration, ghost before: seq<Registration>)
      requires Holds(before)
      modifies this
      ensures Holds(before + [r])
    {
      handlers := handlers[(r.service, r.method_) := r.handler];
      assert (before + [r])[..|before|] == before;
    }
  }

  method NewManager(devices: Devices, w: Wiring) returns (manager: VehicleModeManager)
    ensures fresh(manager) && manager.devices == devices && manager.w == w
    ensures manager.observers == w.observers && manager.mode == OFF
  {
    manager := new VehicleModeManager(devices, w);
    for i := 0 to |w.observers|
      invariant manager.observers == w.observers[..i] && manager.mode == OFF
    {
      manager.AddObserver(w.observers[i]);
    }
  }

  method NewHandler(devices: Devices, store: DtcStore, w: Wiring) returns (handler: UdsServiceHandler)
    ensures fresh(handler) && handler.devices == devices && handler.store == store && handler.w == w
    ensures handler.vin == w.vin && handler.serial == w.serial
    ensures handler.providers == w.providers && handler.session == Default
  {
    handler := new UdsServiceHandler(devices, store, w.vin, w.serial, w);
    for i := 0 to |w.providers|
      invariant handler.providers == w.providers[..i] && handler.session == Default
    {
      handler.AddProvider(w.providers[i]);
    }
  }

  method NewTable(methods: seq<Registration>) returns (table: MethodTable)
    ensures fresh(table) && table.Holds(methods)
  {
    table := new MethodTable();
    for i := 0 to |methods|
      invariant table.Holds(methods[..i])
    {
      assert methods[..i + 1] == methods[..i] + [methods[i]];
      table.RegisterMethod(methods[i], methods[..i]);
    }
    assert methods[..|methods|] == methods;
  }

  /** The whole ECU, with one method per kind of entry point. */
  class BodyEcuDevice {
    const devices: Devices
    const manager: VehicleModeManager
    const ignition: IgnitionController
    const uds: UdsServiceHandler
    const store: DtcStore
    const table: MethodTable
    const w: Wiring

    constructor (w: Wiring)
      ensures Valid() && this.w == w && View() == POWERED
    {
      this.w := w;
      var d := new Devices(w.lockPin, w.lightPins);
      var m := NewManager(d, w);
      var s := new DtcStore();
      var u := NewHandler(d, s, w);
      var t := NewTable(w.methods);
      devices, manager, store, uds, table := d, m, s, u, t;
      ignition := new IgnitionController(m);
    }

    ghost predicate Valid()
      reads this, devices, devices.bus, manager, ignition, uds, table
    {
      && table.Holds(w.methods)
      && manager.devices == devices && ignition.manager == manager && uds.devices == devices && uds.store == store
      && ignition.Valid() && uds.Valid()
      && manager.w == w && uds.w == w
    }

    ghost function View(): Ecu
      requires Valid()
      reads this, devices, devices.bus, devices.Writable(), devices.timers, manager, ignition, uds, store, table
    {
      ignition.View(POWERED).(session := uds.session, dtcs := store.dtcs)
    }

    /** Only the session and the trouble codes are kept outside the ignition's part of the state. */
    lemma Overlaid(rest: Ecu)
      requires Valid()
      ensures View().session == uds.session && View().dtcs == store.dtcs
      ensures rest.session == uds.session && rest.dtcs == store.dtcs ==> ignition.View(rest) == View()
    {
    }

    /** Everything a step may write to. */
    ghost function Frame(): set<object>
      reads this
    {
      devices.Writable() + {devices.timers, store}
    }

    method StartButtonPressed(slotFree: bool)
      requires Valid()
      modifies ignition`cranking, manager`mode, devices.bus`store, Frame()
      ensures Valid() && View() == Step(w, old(View()), StartButton(slotFree))
    {
      hide IgnitionButton;
      hide Step;
      hide View;
      hide IgnitionController.View;
      ghost var before := View();
      ModeSteps(w, before, slotFree);
      Overlaid(before);
      ignition.OnButtonPress(slotFree, before);
      Overlaid(before);
    }

    method CrankTimerFired()
      requires Valid()
      modifies ignition`cranking, manager`mode, devices.bus`store, Frame()
      ensures Valid() && View() == Step(w, old(View()), CrankTimerFires)
    {
      hide CrankTimer;
      hide Step;
      hide View;
      hide IgnitionController.View;
      ghost var before := View();
      ModeSteps(w, before, true);
      Overlaid(before);
      ignition.OnCrankTimer(before);
      Overlaid(before);
    }

    method Initialise()
      requires Valid()
      modifies manager`mode, devices.bus`store, Frame()
      ensures Valid() && View() == Step(w, old(View()), BootUp)
    {
      hide Boot;
      hide Step;
      hide View;
      hide IgnitionController.View;
      ghost var before := View();
      ModeSteps(w, before, true);
      Overlaid(before);
      ignition.Init(before);
      Overlaid(before);
    }

    method SpeedTimerTicked(raw: int)
      requires Valid()
      modifies devices.bus`store, Frame()
      ensures Valid() && View() == Step(w, old(View()), SpeedTick(raw))
    {
      hide Meter.Tick;
      devices.simulator.OnTimerTick(raw);
    }

    /** The bus stores the command and calls its subscribers back. */
    method CommandSignalPublished(value: SignalValue)
      requires Valid()
      modifies devices.bus`store, Frame()
      ensures Valid() && View() == Step(w, old(View()), DoorCommandSignal(value))
    {
      hide Door.OnCommand;
      hide Step;
      CommandStep(w, View(), value);
      var callbacks := devices.bus.Publish(DoorCommand, value);
      assert callbacks == [DoorCommandHandler];
      ghost var stored := View();
      for i := 0 to |callbacks|
        invariant Valid()
        invariant i == 0 ==> View() == stored
        invariant i == 1 ==> View() == stored.WithDoor(stored.DoorPart().OnCommand(w.lockPin, value))
      {
        CallBack(callbacks[i], value);
      }
    }

    method CallBack(subscriber: Subscriber, value: SignalValue)
      requires Valid()
      modifies devices.bus`store, Frame()
      ensures Valid() && View() == old(View()).WithDoor(old(View()).DoorPart().OnCommand(w.lockPin, value))
    {
      hide Door.OnCommand;
      match subscriber
      case DoorCommandHandler => devices.door.OnCommandSignal(value);
    }

    method DoorSensorPublished(value: SignalValue)
      requires Valid()
      modifies devices.bus`store
      ensures Valid() && View() == Step(w, old(View()), DoorOpenSignal(value))
    {
      var callbacks := devices.bus.Publish(DoorIsOpen, value);
      assert callbacks == [];
    }

    method DiagnosticRequested(request: seq<byte>) returns (response: seq<byte>)
      requires Valid()
      modifies uds`session, devices.bus`store, Frame()
      ensures Valid() && (View(), Diagnostic(response)) == StepWithOutput(w, old(View()), DiagnosticRequest(request))
    {
      hide Uds;
      response := uds.HandleRequest(request, View());
    }

    method LightingMethodCalled(method_: uint16, payload: seq<byte>) returns (reply: Output)
      requires Valid()
      modifies devices.Writable()
      ensures Valid() && (View(), reply) == LightingRequest(w, old(View()), method_, payload)
    {
      hide Lamps.Set;
      if method_ == SET_LIGHT_STATE {
        if |payload| < 2 {
          return Done(false, payload);
        }
        var ok := devices.lighting.SetLightState(payload[0], payload[1] != 0);
        return Done(ok, payload);
      }
      if method_ == GET_LIGHT_STATUS {
        var status := devices.lighting.Payload();
        return Done(true, status);
      }
      return NoSuchMethod(payload);
    }

    method DoorMethodCalled(method_: uint16, payload: seq<byte>) returns (reply: Output)
      requires Valid()
      modifies devices.bus`store, devices.Writable()
      ensures Valid() && (View(), reply) == DoorRequest(w, old(View()), method_, payload)
    {
      hide Door.Actuate;
      if method_ == LOCK {
        var ok := devices.door.Lock();
        return Done(ok, payload);
      }
      if method_ == UNLOCK {
        var ok := devices.door.Unlock();
        return Done(ok, payload);
      }
      if method_ == GET_STATUS {
        return Done(true, [Code(devices.door.state)]);
      }
      return NoSuchMethod(payload);
    }

    method ModeSet(target: byte) returns (ok: bool)
      requires Valid()
      modifies manager`mode, devices.bus`store, devices.Writable()
      ensures Valid() && (View(), ok) == SetMode(w, old(View()), target)
    {
      hide SetMode;
      ok := manager.Change(target, View());
    }

    method ModeMethodCalled(method_: uint16, payload: seq<byte>) returns (reply: Output)
      requires Valid()
      modifies manager`mode, devices.bus`store, devices.Writable()
      ensures Valid() && (View(), reply) == ModeRequest(w, old(View()), method_, payload)
    {
      hide SetMode;
      if method_ == GET_MODE {
        return Done(true, [manager.mode]);
      }
      if method_ == SET_MODE {
        if payload == [] {
          return Done(false, payload);
        }
        var ok := ModeSet(payload[0]);
        return Done(ok, payload);
      }
      return NoSuchMethod(payload);
    }

    method SpeedMethodCalled(method_: uint16, payload: seq<byte>) returns (reply: Output)
      requires Valid()
      modifies devices.Writable()
      ensures Valid() && (View(), reply) == SpeedRequest(w, old(View()), method_, payload)
    {
      hide Meter.SetSpeed;
      if method_ == GET_SPEED {
        return Done(true, Float32.Serialize(Float32.Image(devices.simulator.currentSpeed)));
      }
      if method_ == SET_SPEED {
        var code := devices.simulator.HandleSetSpeed(payload);
        return Response(0x80, code, payload);
      }
      return NoSuchMethod(payload);
    }

    /** Calls the handler registered for the method; a method without one is answered by an error. */
    method Dispatch(service: uint16, method_: uint16, payload: seq<byte>) returns (reply: Output)
      requires Valid()
      modifies manager`mode, devices.bus`store, Frame()
      ensures Valid()
      ensures (View(), reply) == StepWithOutput(w, old(View()), MethodCall(service, method_, payload))
    {
      hide Handle;
      hide HandlerOf;
      hide View;
      var handler := table.Find(service, method_);
      assert handler == HandlerOf(w.methods, service, method_);
      match handler
      case None => reply := NoSuchMethod(payload);
      case Some(ToCan) => reply := Done(true, payload);
      case Some(Own(own, ownMethod)) => reply := CallController(own, ownMethod, payload);
    }

    method CallController(service: uint16, method_: uint16, payload: seq<byte>) returns (reply: Output)
      requires Valid()
      modifies manager`mode, devices.bus`store, Frame()
      ensures Valid() && (View(), reply) == Handle(w, old(View()), service, method_, payload)
    {
      hide LightingRequest;
      hide DoorRequest;
      hide ModeRequest;
      hide SpeedRequest;
      hide View;
      if service == LIGHTING {
        reply := LightingMethodCalled(method_, payload);
      } else if service == DOOR_LOCK {
        reply := DoorMethodCalled(method_, payload);
      } else if service == VEHICLE_MODE {
        reply := ModeMethodCalled(method_, payload);
      } else if service == SPEED_SENSOR {
        reply := SpeedMethodCalled(method_, payload);
      } else {
        reply := NoSuchMethod(payload);
      }
    }

    method DoorButtonPressed()
      requires Valid()
      modifies devices.bus`store, Frame()
      ensures Valid() && View() == Step(w, old(View()), DoorButton)
    {
      hide Door.OnButton;
      hide Step;
      DoorSteps(w, View());
      devices.door.OnButtonPress();
    }

    method DoorFailed()
      requires Valid()
      modifies devices.bus`store, Frame()
      ensures Valid() && View() == Step(w, old(View()), DoorFault)
    {
      hide Door.Fail;
      hide Step;
      DoorSteps(w, View());
      devices.door.SetError();
    }

    method DtcStored(code: uint32, status: byte)
      requires Valid()
      modifies store
      ensures Valid() && View() == Step(w, old(View()), StoreDtc(code, status))
    {
      store.Store(code, status);
    }

    method DtcsCleared()
      requires Valid()
      modifies store
      ensures Valid() && View() == Step(w, old(View()), ClearDtcs)
    {
      store.Clear();
    }

    method ShutDownDoor()
      requires Valid()
      modifies devices.bus`store, Frame()
      ensures Valid() && View() == Step(w, old(View()), DoorShutdown)
    {
      hide Door.Actuate;
      hide Step;
      DoorSteps(w, View());
      var _ := devices.door.Unlock();
    }

    method ShutDownLighting()
      requires Valid()
      modifies Frame()
      ensures Valid() && View() == Step(w, old(View()), LightingShutdown)
    {
      hide Lamps.AllOff;
      devices.lighting.AllOff();
    }

    method ShutDownMode()
      requires Valid()
      modifies manager`mode, devices.bus`store, Frame()
      ensures Valid() && View() == Step(w, old(View()), ModeShutdown)
    {
      hide SetMode;
      hide View;
      hide Step;
      ModeSteps(w, View(), true);
      var _ := ModeSet(OFF);
    }
  }
}
