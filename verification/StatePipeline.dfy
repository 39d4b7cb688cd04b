/**
 * The way of the vehicle state to the dashboard: ECU, SOME/IP, bridge, signal broker, cloud gateway, NATS, app.
 * Every hop is lossless and keeps order per field; everything else may interleave.
 */
module StatePipeline {
  import opened Ports
  import opened DoorLock
  import opened Lighting
  import opened BodyEcu
  import opened EventTraces
  import opened NatsSubjects
  import opened CloudSubjects
  import opened KuksaBridge
  import opened CloudGateway
  import opened CompanionApp
  import opened Float32

  // ----- The mappings of the vehicle computer -----

  const LOCK_EVENT := BridgeMapping(DoorIsLocked, EventToSignal, Bool, DOOR_LOCK, EVENT, 0)
  const LOCK_COMMAND := BridgeMapping(DoorCommand, SignalToMethod, Bool, DOOR_LOCK, LOCK, UNLOCK)
  const SPEED_EVENT := BridgeMapping(VehicleSpeed, EventToSignal, Float, SPEED_SENSOR, EVENT, 0)
  const MODE_EVENT := BridgeMapping(VehicleModeSignal, EventToSignal, Int32, VEHICLE_MODE, EVENT, 0)
  const LIGHT_EVENT := BridgeMapping(LightStatus, EventToSignal, Bitmask, LIGHTING, EVENT, 0)
  const LIGHT_COMMAND := BridgeMapping(LightCommand, SignalToMethod, Packed2Bytes, LIGHTING, SET_LIGHT_STATE, 0)
  const VIN_EVENT := BridgeMapping(VehicleVin, EventToSignal, Text, VEHICLE_INFO, EVENT, 0)

  const AUTOSD := [LOCK_EVENT, LOCK_COMMAND, SPEED_EVENT, MODE_EVENT, LIGHT_EVENT, LIGHT_COMMAND, VIN_EVENT]

  function EventOf(f: Field): BridgeMapping {
    match f
    case LockField => LOCK_EVENT
    case ModeField => MODE_EVENT
    case SpeedField => SPEED_EVENT
    case LightField => LIGHT_EVENT
  }

  function ServiceOf(f: Field): uint16 {
    EventOf(f).service
  }

  /** The signal value an event of the field is bridged to. */
  function Told(f: Field, payload: seq<byte>): Option<SignalValue> {
    Meaning(EventOf(f).dataType, payload)
  }

  lemma Scan(m: BridgeMapping, rest: seq<BridgeMapping>, e: Message)
    ensures Handles(m, e.service, e.id) ==>
              BridgeEvent([m] + rest, e) == (match Meaning(m.dataType, e.payload)
                                             case None => None
                                             case Some(value) => Some(Publication(m.path, value)))
    ensures !Handles(m, e.service, e.id) ==> BridgeEvent([m] + rest, e) == BridgeEvent(rest, e)
  {
    assert ([m] + rest)[1..] == rest;
  }

  function Bridged(e: Message): Option<Publication> {
    BridgeEvent(AUTOSD, e)
  }

  /** Every event of a field, and no other, is published at the field's path. */
  lemma BridgeRoutes(f: Field, e: Message)
    ensures e.service == ServiceOf(f) && e.id == EVENT ==>
              Bridged(e) == (match Told(f, e.payload)
                             case None => None
                             case Some(value) => Some(Publication(PathOf(f), value)))
    ensures !(e.service == ServiceOf(f) && e.id == EVENT) ==> Bridged(e).None? || Bridged(e).value.path != PathOf(f)
  {
    hide BridgeEvent;
    hide Meaning;
    Scan(VIN_EVENT, [], e);
    assert BridgeEvent([], e) == None by {
      Nothing(e);
    }
    assert [VIN_EVENT] + [] == [VIN_EVENT];
    Scan(LIGHT_COMMAND, [VIN_EVENT], e);
    var lights := [LIGHT_COMMAND] + [VIN_EVENT];
    Scan(LIGHT_EVENT, lights, e);
    var modes := [LIGHT_EVENT] + lights;
    Scan(MODE_EVENT, modes, e);
    var speeds := [MODE_EVENT] + modes;
    Scan(SPEED_EVENT, speeds, e);
    var commands := [SPEED_EVENT] + speeds;
    Scan(LOCK_COMMAND, commands, e);
    var locks := [LOCK_COMMAND] + commands;
    Scan(LOCK_EVENT, locks, e);
    assert AUTOSD == [LOCK_EVENT] + locks;
  }

  lemma Nothing(e: Message)
    ensures BridgeEvent([], e) == None
  {
  }

  // ----- The state -----

  /** What is between broker and dashboard for one field. */
  datatype Lane = Lane(
    stored: Option<SignalValue>, signals: seq<SignalValue>, mails: seq<Mail>, shown: Option<Shown>)

  datatype Lanes = Lanes(lock: Lane, mode: Lane, speed: Lane, light: Lane) {
    function Of(f: Field): Lane {
      match f
      case LockField => lock
      case ModeField => mode
      case SpeedField => speed
      case LightField => light
    }

    function With(f: Field, lane: Lane): Lanes {
      match f
      case LockField => this.(lock := lane)
      case ModeField => this.(mode := lane)
      case SpeedField => this.(speed := lane)
      case LightField => this.(light := lane)
    }
  }

  /** Signals are delivered under the broker client's mutex, held by the VIN callback too; other threads do without. */
  datatype Republisher = StreamThread | FreeThread(id: nat)

  datatype Fetched = Fetched(field: Field, value: SignalValue)

  /** The first `taken` events have passed the bridge; `vins` are all the VINs the gateway has had. */
  datatype Pipeline = Pipeline(
    ecu: Ecu, taken: nat, lanes: Lanes,
    vin: string, vins: set<string>, locked: bool, fetched: map<Republisher, Fetched>,
    vinMails: seq<string>, appVin: string)

  function Idle(vin: string): Pipeline {
    var lane := Lane(None, [], [], None);
    Pipeline(POWERED, 0, Lanes(lane, lane, lane, lane), vin, {vin}, false, map[], [], DEFAULT_VIN)
  }

  datatype Action =
    | EcuStep(input: Input)
    | BridgeStep
    | Deliver(field: Field)
    | VinSignal(vin: string)
    | VinDone
    | VinResponse(vin: string)
    | Fetch(thread: Republisher, field: Field)
    | Push(thread: Republisher)
    | AppReceives(field: Field)
    | AppReceivesVin

  // ----- The steps -----

  function Stored(lane: Lane, value: SignalValue): Lane {
    lane.(stored := Some(value), signals := lane.signals + [value])
  }

  function FieldAt(path: SignalPath): Option<Field> {
    match path
    case DoorIsLocked => Some(LockField)
    case VehicleModeSignal => Some(ModeField)
    case VehicleSpeed => Some(SpeedField)
    case LightStatus => Some(LightField)
    case _ => None
  }

  function Put(lanes: Lanes, p: Publication): Lanes {
    match FieldAt(p.path)
    case None => lanes
    case Some(f) => lanes.With(f, Stored(lanes.Of(f), p.value))
  }

  /** A lane gets the mails its subscription meets. */
  function Received(f: Field, lane: Lane, mail: Mail): Lane {
    if Matches(Wildcard(SubjectOf(f)), mail.subject) then lane.(mails := lane.mails + [mail]) else lane
  }

  function Post(lanes: Lanes, mail: Mail): Lanes {
    Lanes(Received(LockField, lanes.lock, mail), Received(ModeField, lanes.mode, mail),
          Received(SpeedField, lanes.speed, mail), Received(LightField, lanes.light, mail))
  }

  function Publish(lanes: Lanes, f: Field, vin: string, value: SignalValue): Lanes {
    var mails := Forward(f, vin, value);
    if mails == [] then lanes else Post(lanes, mails[0])
  }

  function Renamed(s: Pipeline, vin: string): Pipeline {
    s.(vin := vin, vins := s.vins + {vin},
    vinMails := s.vinMails + if Matches(Wildcard(InfoVin), Concrete(InfoVin, vin)) then [vin] else [])
  }

  function AppStep(f: Field, s: Pipeline): Pipeline {
    var lane := s.lanes.Of(f);
    if lane.mails == [] then s
    else
      var mail := lane.mails[0];
      s.(lanes := s.lanes.With(f, lane.(mails := lane.mails[1..], shown := Show(f, mail.data, lane.shown))),
      appVin := LearnVin(mail.subject, s.appVin))
  }

  function FetchStep(t: Republisher, f: Field, s: Pipeline): Pipeline {
    if t in s.fetched || (t == StreamThread && !s.locked) || s.lanes.Of(f).stored.None? then s
    else s.(fetched := s.fetched[t := Fetched(f, s.lanes.Of(f).stored.value)])
  }

  function PushStep(t: Republisher, s: Pipeline): Pipeline {
    if t !in s.fetched then s
    else
      s.(fetched := s.fetched - {t},
      lanes := Publish(s.lanes, s.fetched[t].field, s.vin, s.fetched[t].value))
  }

  function DeliverStep(f: Field, s: Pipeline): Pipeline {
    var lane := s.lanes.Of(f);
    if s.locked || lane.signals == [] then s
    else
      var rest := s.lanes.With(f, lane.(signals := lane.signals[1..]));
      s.(lanes := Publish(rest, f, s.vin, lane.signals[0]))
  }

  function BridgeNext(s: Pipeline): Pipeline {
    if s.taken >= |s.ecu.board.sent| then s
    else
      var p := Bridged(s.ecu.board.sent[s.taken]);
      s.(taken := s.taken + 1, lanes := if p.None? then s.lanes else Put(s.lanes, p.value))
  }

  function Act(w: Wiring, s: Pipeline, a: Action): Pipeline {
    match a
    case EcuStep(input) => s.(ecu := Step(w, s.ecu, input))
    case BridgeStep => BridgeNext(s)
    case Deliver(f) => DeliverStep(f, s)
    case VinSignal(vin) =>
      if s.locked || vin == "" || vin == s.vin then s else Renamed(s, vin).(locked := true)
    case VinDone => if StreamThread in s.fetched then s else s.(locked := false)
    case VinResponse(vin) => if vin == "" || vin == s.vin then s else Renamed(s, vin)
    case Fetch(t, f) => FetchStep(t, f, s)
    case Push(t) => PushStep(t, s)
    case AppReceives(f) => AppStep(f, s)
    case AppReceivesVin =>
      if s.vinMails == [] then s
      else s.(vinMails := s.vinMails[1..], appVin := if s.vinMails[0] == "" then s.appVin else s.vinMails[0])
  }

  function Run(w: Wiring, s: Pipeline, actions: seq<Action>): Pipeline {
    if actions == [] then s else Act(w, Run(w, s, actions[..|actions| - 1]), actions[|actions| - 1])
  }

  // ----- What the dashboard is heading for -----

  /** What the dashboard shows of a value once it has come through. */
  function ShownOf(f: Field, value: Option<SignalValue>): Option<Shown> {
    if value.None? || Encode(f, value.value).None? then None else Decode(f, Encode(f, value.value).value)
  }

  predicate Typed(f: Field, value: SignalValue) {
    Encode(f, value).Some?
  }

  lemma TypedShows(f: Field, value: SignalValue)
    requires Typed(f, value)
    ensures ShownOf(f, Some(value)) == Decode(f, Encode(f, value).value) && ShownOf(f, Some(value)).Some?
  {
    hide Value;
    hide Deserialize;
  }

  /** The field after the app has received the mails. */
  function AfterMails(f: Field, mails: seq<Mail>, shown: Option<Shown>): Option<Shown> {
    if mails == [] then shown
    else Show(f, mails[|mails| - 1].data, AfterMails(f, mails[..|mails| - 1], shown))
  }

  /** The field after gateway and app have passed on the values. */
  function AfterSignals(f: Field, values: seq<SignalValue>, shown: Option<Shown>): Option<Shown> {
    if values == [] then shown
    else
      var before := AfterSignals(f, values[..|values| - 1], shown);
      var data := Encode(f, values[|values| - 1]);
      if data.None? then before else Show(f, data.value, before)
  }

  /** The values the bridge makes of event payloads. */
  function ToldAll(f: Field, payloads: seq<seq<byte>>): seq<SignalValue> {
    if payloads == [] then []
    else
      var before, value := ToldAll(f, payloads[..|payloads| - 1]), Told(f, payloads[|payloads| - 1]);
      if value.None? then before else before + [value.value]
  }

  /** The field once everything in flight has been passed on in order. */
  function Heading(f: Field, s: Pipeline): Option<Shown>
    requires s.taken <= |s.ecu.board.sent|
  {
    var lane := s.lanes.Of(f);
    var coming := ToldAll(f, Payloads(s.ecu.board.sent[s.taken..], ServiceOf(f)));
    AfterSignals(f, lane.signals + coming, AfterMails(f, lane.mails, lane.shown))
  }

  /** The lock shows as locked in the error state too. */
  function Truth(f: Field, e: Ecu): Shown {
    match f
    case LockField => LockShown(e.door != Unlocked)
    case ModeField => ModeShown(e.mode)
    case SpeedField => SpeedShown(Finite(e.sim.speed as real))
    case LightField =>
      LightsShown((if e.lights[0] then 1 else 0) + (if e.lights[1] then 2 else 0) + (if e.lights[2] then 4 else 0))
  }

  /** The truth, as far as there has been an event to tell it. */
  function Expected(f: Field, e: Ecu): Option<Shown> {
    if Payloads(e.board.sent, ServiceOf(f)) == [] then None else Some(Truth(f, e))
  }
}
