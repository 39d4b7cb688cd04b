/** The way back: commands of the companion app, over NATS, gateway, broker and bridge, to the ECU. */
module RemoteCommands {
  import opened Ports
  import opened DoorLock
  import opened Lighting
  import opened BodyEcu
  import opened DoorLaw
  import opened NatsSubjects
  import opened CloudSubjects
  import opened KuksaBridge
  import opened CloudGateway
  import opened StatePipeline

  function Call(m: BridgeMapping, value: Option<SignalValue>): Option<Input> {
    if value.None? then None
    else
      var request := CommandRequest(m, FromBroker(value.value));
      Some(MethodCall(request.service, request.id, request.payload))
  }

  /** The request that a message on the subject makes of the handler of y, if that one is called at all. */
  function Commanded(y: Subject, subject: string, data: seq<byte>): Option<Input> {
    if !Matches(Wildcard(y), subject) then None
    else if y == CommandLock then Call(LOCK_COMMAND, LockCommand(data))
    else if y == CommandLights then Call(LIGHT_COMMAND, LightsCommand(data))
    else None
  }

  /** A lock message of any content asks for one method of the door, by its first byte; an empty one for none. */
  lemma LockMessage(vin: string, data: seq<byte>)
    requires DotFree(vin)
    ensures Commanded(CommandLock, Concrete(CommandLock, vin), data) ==
            if data == [] then None
            else Some(MethodCall(DOOR_LOCK, if data[0] != 0 then LOCK else UNLOCK, [if data[0] != 0 then 1 else 0]))
    ensures Commanded(CommandLights, Concrete(CommandLock, vin), data) == None
  {
    SubscriptionRoutes(CommandLock, CommandLock, vin);
    SubscriptionRoutes(CommandLights, CommandLock, vin);
    hide Matches;
    hide Concrete;
    hide Wildcard;
    hide DotFree;
  }

  /** The two bytes of a light message survive being packed into one number; what follows them is dropped. */
  lemma LightMessage(vin: string, data: seq<byte>)
    requires DotFree(vin)
    ensures Commanded(CommandLights, Concrete(CommandLights, vin), data) ==
            if |data| < 2 then None else Some(MethodCall(LIGHTING, SET_LIGHT_STATE, data[..2]))
    ensures Commanded(CommandLock, Concrete(CommandLights, vin), data) == None
  {
    hide Matches;
    hide Concrete;
    hide Wildcard;
    hide DotFree;
    hide LightsCommand;
    SubscriptionRoutes(CommandLock, CommandLights, vin);
    SubscriptionRoutes(CommandLights, CommandLights, vin);
    Packed(data);
  }

  lemma Packed(data: seq<byte>)
    ensures Call(LIGHT_COMMAND, LightsCommand(data)) ==
            if |data| < 2 then None else Some(MethodCall(LIGHTING, SET_LIGHT_STATE, data[..2]))
  {
    if |data| >= 2 {
      var word := Word(data[0], data[1]);
      assert word / 0x100 == data[0] && word % 0x100 == data[1];
      assert data[..2] == [data[0], data[1]];
    }
  }

  lemma DoorObeys(w: Wiring, s: Ecu, lock: bool, payload: seq<byte>)
    requires DoorReached(w)
    ensures Step(w, s, MethodCall(DOOR_LOCK, if lock then LOCK else UNLOCK, payload)).door ==
            if s.door == Error || Unsafe(s.board.bus) then s.door else if lock then Locked else Unlocked
  {
    hide Unsafe;
    hide HandlerOf;
    hide LightingRequest;
    hide ModeRequest;
    hide SpeedRequest;
  }

  lemma LightObeys(w: Wiring, s: Ecu, id: byte, on: bool, payload: seq<byte>)
    requires LightReached(w) && id < LIGHT_COUNT && |payload| == 2 && payload[0] == id && (payload[1] != 0 <==> on)
    ensures Step(w, s, MethodCall(LIGHTING, SET_LIGHT_STATE, payload)).lights == s.lights[id := on]
  {
    hide HandlerOf;
    hide DoorRequest;
    hide ModeRequest;
    hide SpeedRequest;
    hide Bytes;
  }

  /** No component has taken over the two door methods. */
  predicate DoorReached(w: Wiring) {
    Reaches(w, DOOR_LOCK, LOCK, DOOR_LOCK, LOCK) && Reaches(w, DOOR_LOCK, UNLOCK, DOOR_LOCK, UNLOCK)
  }

  predicate LightReached(w: Wiring) {
    Reaches(w, LIGHTING, SET_LIGHT_STATE, LIGHTING, SET_LIGHT_STATE)
  }

  /** After any run, the door obeys unless it has failed, the car is above 5 km/h or the door was reported open. */
  lemma RemoteLock(w: Wiring, run: seq<Input>, vin: string, lock: bool)
    requires DotFree(vin) && DoorReached(w)
    ensures var s := After(w, POWERED, run);
            var command := Commanded(CommandLock, Concrete(CommandLock, vin), [if lock then 1 else 0]);
            && command.Some?
            && Step(w, s, command.value).door ==
               if s.door == Error || s.sim.speed > 5 || ReportedOpen(run) then s.door
               else if lock then Locked else Unlocked
  {
    hide Commanded;
    hide Concrete;
    hide Unsafe;
    hide DotFree;
    hide Step;
    hide After;
    hide DoorReached;
    hide ReportedOpen;
    var data: seq<byte> := [if lock then 1 else 0];
    LockMessage(vin, data);
    FreeIsSafe(w, run);
    DoorObeys(w, After(w, POWERED, run), lock, data);
  }

  /** The bit of the light on the dashboard, once the event has come through, is what was asked for. */
  lemma RemoteLight(w: Wiring, s: Ecu, vin: string, id: byte, on: bool)
    requires DotFree(vin) && LightReached(w) && id < LIGHT_COUNT
    ensures var command := LightCommandFor(vin, id, on);
            && command.Some?
            && var s' := Step(w, s, command.value);
            && s'.lights == s.lights[id := on]
            && Truth(LightField, s').LightsShown?
            && forall i :: 0 <= i < LIGHT_COUNT ==>
                 (Bit(Truth(LightField, s').bits, i) <==> if i == id then on else s.lights[i])
  {
    hide Commanded;
    hide Concrete;
    hide DotFree;
    hide Step;
    hide Truth;
    hide Bit;
    hide LightReached;
    var data: seq<byte> := [id, if on then 1 else 0];
    LightMessage(vin, data);
    assert data[..2] == data;
    LightObeys(w, s, id, on, data);
    LightBits(Step(w, s, MethodCall(LIGHTING, SET_LIGHT_STATE, data)));
  }

  // ----- Methods taken over -----

  function LightCommandFor(vin: string, id: byte, on: bool): Option<Input> {
    Commanded(CommandLights, Concrete(CommandLights, vin), [id, if on then 1 else 0])
  }

  lemma {:induction false} HandlerOfConcat(a: seq<Registration>, b: seq<Registration>, service: uint16, method_: uint16)
    ensures HandlerOf(a + b, service, method_) ==
            var last := HandlerOf(b, service, method_);
            if last.Some? then last else HandlerOf(a, service, method_)
  {
    if b == [] {
      assert a + b == a;
    } else {
      HandlerOfConcat(a, b[..|b| - 1], service, method_);
      assert (a + b)[..|a + b| - 1] == a + b[..|b| - 1];
    }
  }

  predicate ForMethod(r: Registration, service: uint16, method_: uint16) {
    r.service == service && r.method_ == method_
  }

  /** The handler of a method is that of its last registration; there is none iff the method is not registered. */
  lemma {:induction false} HandlerIsLast(methods: seq<Registration>, service: uint16, method_: uint16)
    ensures match HandlerOf(methods, service, method_)
            case None => forall r :: r in methods ==> !ForMethod(r, service, method_)
            case Some(handler) =>
              exists i :: 0 <= i < |methods| && methods[i].handler == handler &&
                          ForMethod(methods[i], service, method_) &&
                          forall j :: i < j < |methods| ==> !ForMethod(methods[j], service, method_)
  {
    if methods != [] && !ForMethod(methods[|methods| - 1], service, method_) {
      var before := methods[..|methods| - 1];
      HandlerIsLast(before, service, method_);
      assert forall r :: r in methods ==> r in before || r == methods[|methods| - 1];
      assert forall i :: 0 <= i < |before| ==> methods[i] == before[i];
    }
  }

  lemma OwnLightMethod()
    ensures HandlerOf(CONTROLLER_METHODS, LIGHTING, SET_LIGHT_STATE) == Some(Own(LIGHTING, SET_LIGHT_STATE))
  {
    var first := [Registered(LIGHTING, SET_LIGHT_STATE)];
    var others := CONTROLLER_METHODS[1..];
    HandlerIsLast(others, LIGHTING, SET_LIGHT_STATE);
    hide HandlerOf;
    HandlerOfConcat(first, others, LIGHTING, SET_LIGHT_STATE);
    assert CONTROLLER_METHODS == first + others;
    HandlerIsLast(first, LIGHTING, SET_LIGHT_STATE);
    assert first[0] in first;
  }

  /** Every light command of the app does what it says, in every state. */
  ghost predicate LightsObey(w: Wiring, vin: string) {
    forall s: Ecu, id: byte, on: bool :: id < LIGHT_COUNT ==> LightObeyed(w, s, vin, id, on)
  }

  predicate LightObeyed(w: Wiring, s: Ecu, vin: string, id: byte, on: bool)
    requires id < LIGHT_COUNT
  {
    var command := LightCommandFor(vin, id, on);
    command.Some? && Step(w, s, command.value).lights == s.lights[id := on]
  }

  lemma TakenOver(w: Wiring, s: Ecu, vin: string)
    requires DotFree(vin) && HandlerOf(w.methods, LIGHTING, SET_LIGHT_STATE) == Some(ToCan) && !s.lights[0]
    ensures !LightObeyed(w, s, vin, 0, true)
  {
    hide Commanded;
    hide Concrete;
    hide DotFree;
    hide HandlerOf;
    LightMessage(vin, [0, 1]);
    assert [0 as byte, 1][..2] == [0, 1];
    assert s.lights[0 := true][0];
  }

  /** The app's light commands are obeyed iff the CAN gateway, registering later, has not taken over the method. */
  lemma LightsObeyIffNotTakenOver(w: Wiring, vin: string, later: seq<Registration>)
    requires DotFree(vin) && w.methods == CONTROLLER_METHODS + later && forall r :: r in later ==> r.handler == ToCan
    ensures LightsObey(w, vin) <==> forall r :: r in later ==> !ForMethod(r, LIGHTING, SET_LIGHT_STATE)
  {
    OwnLightMethod();
    HandlerOfConcat(CONTROLLER_METHODS, later, LIGHTING, SET_LIGHT_STATE);
    HandlerIsLast(later, LIGHTING, SET_LIGHT_STATE);
    hide HandlerOf;
    hide LightObeyed;
    hide DotFree;
    if HandlerOf(later, LIGHTING, SET_LIGHT_STATE).Some? {
      TakenOver(w, POWERED, vin);
      assert exists i :: 0 <= i < |later| && ForMethod(later[i], LIGHTING, SET_LIGHT_STATE) && later[i] in later;
    } else {
      forall s: Ecu, id: byte, on: bool | id < LIGHT_COUNT
        ensures LightObeyed(w, s, vin, id, on)
      {
        RemoteLightObeyed(w, s, vin, id, on);
      }
    }
  }

  lemma RemoteLightObeyed(w: Wiring, s: Ecu, vin: string, id: byte, on: bool)
    requires DotFree(vin) && LightReached(w) && id < LIGHT_COUNT
    ensures LightObeyed(w, s, vin, id, on)
  {
    hide Step;
    hide DotFree;
    hide LightReached;
    hide Truth;
    hide Bit;
    hide LightCommandFor;
    RemoteLight(w, s, vin, id, on);
  }

  lemma LightBits(s: Ecu)
    ensures Truth(LightField, s).LightsShown?
    ensures forall i :: 0 <= i < LIGHT_COUNT ==> (Bit(Truth(LightField, s).bits, i) <==> s.lights[i])
  {
    var bits := Truth(LightField, s).bits;
    assert Bit(bits, 0) <==> s.lights[0];
    assert Bit(bits, 1) <==> s.lights[1];
    assert Bit(bits, 2) <==> s.lights[2];
  }

  // ----- Signals that are no commands -----

  /** Whatever is published as a lock command: it asks to unlock iff it reaches the bridge as false, else to lock. */
  lemma OnlyFalseUnlocks(value: SignalValue)
    ensures Call(LOCK_COMMAND, Some(value)).Some?
    ensures var request := Call(LOCK_COMMAND, Some(value)).value;
            && request.service == DOOR_LOCK
            && request.method_ == (if FromBroker(value) == BoolValue(false) then UNLOCK else LOCK)
            && (request.payload == [] <==> !FromBroker(value).BoolValue?)
  {
  }

  /** And the gateway publishes bools only, false iff the first byte of the message is 0. */
  lemma CloudPublishesBools(data: seq<byte>)
    ensures LockCommand(data).Some? <==> data != []
    ensures data != [] ==> FromBroker(LockCommand(data).value) == BoolValue(data[0] != 0)
  {
  }
}
