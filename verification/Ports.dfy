/** Value types and device objects shared by the controllers of the body ECU. */
module Ports {
  type byte = x: int | 0 <= x < 0x100
  type uint16 = x: int | 0 <= x < 0x1_0000
  type uint32 = x: int | 0 <= x < 0x1_0000_0000

  datatype Option<+T> = None | Some(value: T)

  /** The high and the low byte of a 16-bit number, as `x >> 8` and `x & 0xFF` give them. */
  function High(x: uint16): byte { x / 0x100 }

  function Low(x: uint16): byte { x % 0x100 }

  /** `(hi << 8) | lo`. */
  function Word(hi: byte, lo: byte): uint16 { hi * 0x100 + lo }

  /** The four bytes of a 32-bit number, each from its half: so no division meets another. */
  lemma Halves(n: uint32)
    ensures n == n / 0x1_0000 * 0x1_0000 + n % 0x1_0000
    ensures n / 0x1_0000 < 0x1_0000
  {
  }

  lemma FirstByte(n: uint32)
    ensures n / 0x100_0000 == n / 0x1_0000 / 0x100
  {
  }

  lemma ThirdByte(n: uint32)
    ensures n / 0x100 % 0x100 == n % 0x1_0000 / 0x100
  {
    var hi, lo := n / 0x1_0000, n % 0x1_0000;
    Halves(n);
    assert n / 0x100 == hi * 0x100 + lo / 0x100;
  }

  lemma LastByteOf(n: uint32)
    ensures n % 0x100 == n % 0x1_0000 % 0x100
  {
  }

  /** Joining the bytes of a number gives it back. */
  lemma FourBytes(n: uint32)
    ensures n / 0x100_0000 < 0x100
    ensures n / 0x100_0000 * 0x100_0000 + n / 0x1_0000 % 0x100 * 0x1_0000 + n / 0x100 % 0x100 * 0x100 + n % 0x100 == n
  {
    var hi, lo := n / 0x1_0000, n % 0x1_0000;
    Halves(n);
    FirstByte(n);
    ThirdByte(n);
    LastByteOf(n);
    assert hi == hi / 0x100 * 0x100 + hi % 0x100;
    assert lo == lo / 0x100 * 0x100 + lo % 0x100;
  }

  /** The signal paths the vehicle software publishes or reads. */
  datatype SignalPath =
    | VehicleSpeed
    | DoorIsLocked
    | DoorIsOpen
    | DoorCommand
    | DoorResponse
    | VehicleModeSignal
    | LightStatus
    | LightCommand
    | VehicleVin

  /** A float travels and is stored as its 32-bit image (IEEE 754-2019, section 3.4). */
  datatype SignalValue =
    | BoolValue(flag: bool)
    | IntValue(number: int)
    | FloatValue(image: uint32)
    | StringValue(text: string)
    | BytesValue(bytes: seq<byte>)

  type Store = map<SignalPath, SignalValue>

  /** A SOME/IP notification: service, event and payload. */
  datatype Message = Message(service: uint16, id: uint16, payload: seq<byte>)

  const LIGHTING: uint16 := 0x1000
  const DOOR_LOCK: uint16 := 0x1001
  const VEHICLE_MODE: uint16 := 0x1002
  const SPEED_SENSOR: uint16 := 0x1003
  const VEHICLE_INFO: uint16 := 0x1004
  /** Every service numbers its single event alike. */
  const EVENT: uint16 := 0x8001

  /** Who is to be called back when a signal changes. */
  datatype Subscriber = DoorCommandHandler

  class SignalBus {
    var store: Store
    var subscribers: map<SignalPath, seq<Subscriber>>

    constructor ()
      ensures store == map[] && subscribers == map[]
    {
      store, subscribers := map[], map[];
    }

    /** Stores the value and hands out the subscribers to call, a copy taken under the lock. */
    method Publish(path: SignalPath, value: SignalValue) returns (callbacks: seq<Subscriber>)
      modifies this`store
      ensures store == old(store)[path := value]
      ensures callbacks == if path in subscribers then subscribers[path] else []
    {
      store := store[path := value];
      callbacks := if path in subscribers then subscribers[path] else [];
    }

    method Subscribe(path: SignalPath, callback: Subscriber)
      modifies this`subscribers
      ensures subscribers == old(subscribers)[path :=
                               (if path in old(subscribers) then old(subscribers)[path] else []) + [callback]]
    {
      var known := if path in subscribers then subscribers[path] else [];
      subscribers := subscribers[path := known + [callback]];
    }

    function Get(path: SignalPath): Option<SignalValue>
      reads this`store
    {
      if path in store then Some(store[path]) else None
    }
  }

  /** Output pins; a pin never written is low. */
  class GpioPort {
    var levels: map<nat, bool>

    constructor ()
      ensures levels == map[]
    {
      levels := map[];
    }

    method Write(pin: nat, level: bool)
      modifies this
      ensures levels == old(levels)[pin := level]
    {
      levels := levels[pin := level];
    }
  }

  function Level(levels: map<nat, bool>, pin: nat): bool {
    pin in levels && levels[pin]
  }

  /** One-shot timers: a start may fail for want of a slot, a pending timer fires at most once. */
  class TimerService {
    var pending: nat

    constructor ()
      ensures pending == 0
    {
      pending := 0;
    }

    method StartOneShot(slotFree: bool) returns (ok: bool)
      modifies this
      ensures ok == slotFree
      ensures pending == old(pending) + if slotFree then 1 else 0
    {
      if slotFree {
        pending := pending + 1;
      }
      ok := slotFree;
    }
  }
}
