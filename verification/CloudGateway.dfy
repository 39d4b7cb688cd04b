/** The cloud gateway: signals of the broker become messages on the subjects of the vehicle, commands the reverse. */
module CloudGateway {
  import opened Ports
  import opened CloudSubjects
  import opened KuksaBridge
  import Float32

  /** What the dashboard shows of the vehicle. */
  datatype Field = LockField | ModeField | SpeedField | LightField

  function PathOf(f: Field): SignalPath {
    match f
    case LockField => DoorIsLocked
    case ModeField => VehicleModeSignal
    case SpeedField => VehicleSpeed
    case LightField => LightStatus
  }

  function SubjectOf(f: Field): Subject {
    match f
    case LockField => StateLocked
    case ModeField => StateMode
    case SpeedField => StateSpeed
    case LightField => StateLights
  }

  /** The message for a signal value; a value of another type is not forwarded. */
  function Encode(f: Field, value: SignalValue): Option<seq<byte>> {
    match (f, value)
    case (LockField, BoolValue(flag)) => Some([if flag then 1 else 0])
    case (ModeField, IntValue(n)) => Some([n % 0x100])
    case (LightField, IntValue(n)) => Some([n % 0x100])
    case (SpeedField, FloatValue(image)) => Some(Float32.Serialize(image))
    case _ => None
  }

  datatype Mail = Mail(subject: string, data: seq<byte>)

  function Forward(f: Field, vin: string, value: SignalValue): seq<Mail> {
    match Encode(f, value)
    case None => []
    case Some(data) => [Mail(Concrete(SubjectOf(f), vin), data)]
  }

  /** What the broker holds of a field, as a message. */
  function Held(f: Field, vin: string, store: Store): seq<Mail> {
    if PathOf(f) in store then Forward(f, vin, store[PathOf(f)]) else []
  }

  function CurrentState(vin: string, store: Store): seq<Mail> {
    Held(LockField, vin, store) + Held(ModeField, vin, store) + Held(SpeedField, vin, store) +
    Held(LightField, vin, store)
  }

  function TextBytes(text: string): seq<byte> {
    seq(|text|, i requires 0 <= i < |text| => text[i] as int % 0x100)
  }

  /** Read one byte a character, a text of characters below 256 comes back. */
  lemma TextSurvives(text: string)
    requires forall i :: 0 <= i < |text| ==> text[i] as int < 0x100
    ensures ToText(TextBytes(text)) == text
  {
  }

  /** A lock command: any byte but 0 asks for the lock, no byte for nothing. */
  function LockCommand(data: seq<byte>): Option<SignalValue> {
    if data == [] then None else Some(BoolValue(data[0] != 0))
  }

  /** A light command: two bytes packed into one number, fewer ask for nothing. */
  function LightsCommand(data: seq<byte>): Option<SignalValue> {
    if |data| < 2 then None else Some(IntValue(Word(data[0], data[1])))
  }

  lemma Regroup(a: seq<Mail>, b: seq<Mail>, c: seq<Mail>, d: seq<Mail>, e: seq<Mail>)
    ensures a + b + c + d + e == a + (b + c + d + e)
  {
  }

  /** The connection to the cloud: messages in the order they are published. */
  class CloudTransport {
    var published: seq<Mail>

    constructor ()
      ensures published == []
    {
      published := [];
    }

    method Publish(subject: string, data: seq<byte>)
      modifies this
      ensures published == old(published) + [Mail(subject, data)]
    {
      published := published + [Mail(subject, data)];
    }
  }

  class CloudGatewayClient {
    const transport: CloudTransport
    const broker: SignalBroker
    var vin: string
    var connected: bool

    constructor (transport: CloudTransport, broker: SignalBroker, vin: string)
      ensures this.transport == transport && this.broker == broker && this.vin == vin && !connected
    {
      this.transport, this.broker, this.vin, connected := transport, broker, vin, false;
    }

    method OnModeChanged(value: SignalValue)
      modifies transport
      ensures transport.published == old(transport.published) + Forward(ModeField, vin, value)
    {
      if value.IntValue? {
        transport.Publish(Concrete(StateMode, vin), [value.number % 0x100]);
      }
    }

    method OnSpeedChanged(value: SignalValue)
      modifies transport
      ensures transport.published == old(transport.published) + Forward(SpeedField, vin, value)
    {
      if value.FloatValue? {
        transport.Publish(Concrete(StateSpeed, vin), Float32.Serialize(value.image));
      }
    }

    method OnLightsChanged(value: SignalValue)
      modifies transport
      ensures transport.published == old(transport.published) + Forward(LightField, vin, value)
    {
      if value.IntValue? {
        transport.Publish(Concrete(StateLights, vin), [value.number % 0x100]);
      }
    }

    method OnLockStateChanged(value: SignalValue)
      modifies transport
      ensures transport.published == old(transport.published) + Forward(LockField, vin, value)
    {
      if value.BoolValue? {
        transport.Publish(Concrete(StateLocked, vin), [if value.flag then 1 else 0]);
      }
    }

    method OnCommandResponse(value: SignalValue)
      modifies transport
      ensures transport.published == old(transport.published) +
              if value.IntValue? then [Mail(Concrete(CommandResponse, vin), [value.number % 0x100])] else []
    {
      if value.IntValue? {
        transport.Publish(Concrete(CommandResponse, vin), [value.number % 0x100]);
      }
    }

    method OnCloudCommand(data: seq<byte>)
      modifies broker
      ensures broker.published == old(broker.published) +
              if LockCommand(data).Some? then [Publication(DoorCommand, LockCommand(data).value)] else []
    {
      if data != [] {
        broker.Publish(DoorCommand, BoolValue(data[0] != 0));
      }
    }

    method OnLightsCommand(data: seq<byte>)
      modifies broker
      ensures broker.published == old(broker.published) +
              if LightsCommand(data).Some? then [Publication(LightCommand, LightsCommand(data).value)] else []
    {
      if |data| >= 2 {
        broker.Publish(LightCommand, IntValue(data[0] as int * 0x100 + data[1]));
      }
    }

    method PublishHeld(f: Field)
      modifies transport
      ensures transport.published == old(transport.published) + Held(f, vin, broker.store)
    {
      hide Concrete;
      hide Encode;
      hide Forward;
      if PathOf(f) in broker.store {
        var value := broker.store[PathOf(f)];
        match f {
          case LockField => OnLockStateChanged(value);
          case ModeField => OnModeChanged(value);
          case SpeedField => OnSpeedChanged(value);
          case LightField => OnLightsChanged(value);
        }
      }
    }

    /** Tells late subscribers what the broker holds. */
    method PublishCurrentState()
      modifies transport
      ensures transport.published == old(transport.published) +
              if connected then CurrentState(vin, broker.store) else []
    {
      if !connected {
        return;
      }
      hide Held;
      hide Concrete;
      ghost var lock, mode := Held(LockField, vin, broker.store), Held(ModeField, vin, broker.store);
      ghost var speed, light := Held(SpeedField, vin, broker.store), Held(LightField, vin, broker.store);
      ghost var before := transport.published;
      PublishHeld(LockField);
      PublishHeld(ModeField);
      PublishHeld(SpeedField);
      PublishHeld(LightField);
      Regroup(before, lock, mode, speed, light);
    }

    /** A new VIN is announced under its own subject, followed by the current state. */
    method UpdateVin(vin: string)
      modifies this`vin, transport
      ensures this.vin == if vin == "" then old(this.vin) else vin
      ensures transport.published == old(transport.published) +
              if vin == "" || vin == old(this.vin) || !connected then []
              else [Mail("vehicles." + vin + ".info.vin", TextBytes(vin))] + CurrentState(vin, broker.store)
    {
      hide TextBytes;
      hide CurrentState;
      if vin == "" || vin == this.vin {
        return;
      }
      this.vin := vin;
      if connected {
        ghost var before := transport.published;
        ghost var news := [Mail("vehicles." + vin + ".info.vin", TextBytes(vin))];
        transport.Publish("vehicles." + vin + ".info.vin", TextBytes(vin));
        PublishCurrentState();
        assert before + news + CurrentState(vin, broker.store) == before + (news + CurrentState(vin, broker.store));
      }
    }

    method Shutdown()
      modifies this`connected
      ensures !connected
    {
      connected := false;
    }
  }
}
