/** The bridge between SOME/IP and the signal broker: events become signals, command signals become requests. */
module KuksaBridge {
  import opened Ports
  import Float32

  datatype Direction = EventToSignal | SignalToMethod

  datatype DataType = Int32 | Bool | Float | Text | Bitmask | Packed2Bytes

  /** `falseMethod` is 0 where a false value has no method of its own. */
  datatype BridgeMapping = BridgeMapping(
    path: SignalPath, direction: Direction, dataType: DataType, service: uint16, id: uint16, falseMethod: uint16)

  datatype Publication = Publication(path: SignalPath, value: SignalValue)

  // ----- Events to signals -----

  const WIDTH := 32

  /** The 32 low bits of n as a two's complement number. */
  function Signed(n: nat): int {
    var low := n % 0x1_0000_0000;
    if low < 0x8000_0000 then low else low - 0x1_0000_0000
  }

  /** Bytes shifted in from the right, 32 bits kept. */
  function BigEndian(bytes: seq<byte>): uint32 {
    if bytes == [] then 0 else (BigEndian(bytes[..|bytes| - 1]) * 0x100 + bytes[|bytes| - 1]) % 0x1_0000_0000
  }

  /** The last four bytes, with zeros before them where there are fewer. */
  function LastFour(bytes: seq<byte>): (four: seq<byte>)
    ensures |four| == 4
  {
    ([0, 0, 0, 0] + bytes)[|bytes|..]
  }

  lemma ShiftIn(four: seq<byte>, b: byte)
    requires |four| == 4
    ensures (Float32.Deserialize(four) * 0x100 + b) % 0x1_0000_0000 == Float32.Deserialize(four[1..] + [b])
  {
    var rest := Float32.Deserialize(four[1..] + [b]);
    assert Float32.Deserialize(four) * 0x100 + b == four[0] as int * 0x1_0000_0000 + rest;
  }

  /** Of a payload of any length the last four bytes count, high byte first. */
  lemma {:induction false} BigEndianLastFour(bytes: seq<byte>)
    ensures BigEndian(bytes) == Float32.Deserialize(LastFour(bytes))
  {
    if bytes != [] {
      var before, b := bytes[..|bytes| - 1], bytes[|bytes| - 1];
      BigEndianLastFour(before);
      ShiftIn(LastFour(before), b);
      assert LastFour(bytes) == LastFour(before)[1..] + [b];
    }
  }

  /** Bit i is set iff byte i is not 0. */
  function Mask(bytes: seq<byte>): nat {
    if bytes == [] then 0 else (if bytes[0] != 0 then 1 else 0) + 2 * Mask(bytes[1..])
  }

  predicate Bit(n: nat, i: nat) {
    if i == 0 then n % 2 == 1 else Bit(n / 2, i - 1)
  }

  lemma {:induction false} MaskBits(bytes: seq<byte>, i: nat)
    ensures Bit(Mask(bytes), i) <==> i < |bytes| && bytes[i] != 0
  {
    if bytes == [] {
      NoBits(i);
    } else if i > 0 {
      MaskBits(bytes[1..], i - 1);
    }
  }

  lemma NoBits(i: nat)
    ensures !Bit(0, i)
  {
  }

  lemma {:induction false} MaskAppend(bytes: seq<byte>, b: byte)
    ensures Mask(bytes + [b]) == Mask(bytes) + if b != 0 then Float32.Pow2(|bytes|) else 0
  {
    if bytes != [] {
      MaskAppend(bytes[1..], b);
      assert (bytes + [b])[1..] == bytes[1..] + [b];
    } else {
      assert [b][1..] == [];
    }
  }

  function ToText(bytes: seq<byte>): string {
    seq(|bytes|, i requires 0 <= i < |bytes| => bytes[i] as char)
  }

  /** Everything before the first zero byte. */
  function BeforeZero(bytes: seq<byte>): seq<byte> {
    if bytes == [] || bytes[0] == 0 then [] else [bytes[0]] + BeforeZero(bytes[1..])
  }

  /** The signal value an event payload stands for, if it stands for one. */
  function Meaning(dataType: DataType, payload: seq<byte>): Option<SignalValue> {
    if payload == [] then None
    else match dataType
      case Bool => Some(BoolValue(payload[|payload| - 1] != 0))
      case Float => if |payload| < 4 then None else Some(FloatValue(Float32.Deserialize(payload)))
      case Bitmask => Some(IntValue(Signed(Mask(if |payload| <= WIDTH then payload else payload[..WIDTH]))))
      case Text => Some(StringValue(ToText(BeforeZero(payload))))
      case _ => Some(IntValue(Signed(BigEndian(payload))))
  }

  predicate Handles(m: BridgeMapping, service: uint16, id: uint16) {
    m.direction == EventToSignal && m.service == service && m.id == id
  }

  /** The first mapping for an event decides. */
  function BridgeEvent(mappings: seq<BridgeMapping>, e: Message): Option<Publication> {
    if mappings == [] then None
    else if Handles(mappings[0], e.service, e.id) then
      match Meaning(mappings[0].dataType, e.payload)
      case None => None
      case Some(value) => Some(Publication(mappings[0].path, value))
    else BridgeEvent(mappings[1..], e)
  }

  // ----- Signals to requests -----

  /** A request whose payload stays empty when the signal has another type than the mapping. */
  function CommandRequest(m: BridgeMapping, value: SignalValue): Message {
    if m.dataType == Packed2Bytes then
      Message(m.service, m.id, if value.IntValue? then [value.number / 0x100 % 0x100, value.number % 0x100] else [])
    else if value.BoolValue? then
      Message(m.service, if !value.flag && m.falseMethod != 0 then m.falseMethod else m.id,
              [if value.flag then 1 else 0])
    else
      Message(m.service, m.id, [])
  }

  /** What the broker's client delivers of a value published: bytes have no representation and arrive as false. */
  function FromBroker(value: SignalValue): SignalValue {
    if value.BytesValue? then BoolValue(false) else value
  }

  // ----- The bridge -----

  class SignalBroker {
    var store: Store
    var published: seq<Publication>

    constructor ()
      ensures store == map[] && published == []
    {
      store, published := map[], [];
    }

    method Publish(path: SignalPath, value: SignalValue)
      modifies this
      ensures store == old(store)[path := value]
      ensures published == old(published) + [Publication(path, value)]
    {
      store := store[path := value];
      published := published + [Publication(path, value)];
    }
  }

  method ReadMask(payload: seq<byte>) returns (n: int)
    ensures n == Signed(Mask(if |payload| <= WIDTH then payload else payload[..WIDTH]))
  {
    var mask: nat := 0;
    var bit: nat := 1;
    var count := if |payload| <= WIDTH then |payload| else WIDTH;
    for i := 0 to count
      invariant mask == Mask(payload[..i])
      invariant bit == Float32.Pow2(i)
    {
      MaskAppend(payload[..i], payload[i]);
      assert payload[..i + 1] == payload[..i] + [payload[i]];
      if payload[i] != 0 {
        mask := mask + bit;
      }
      bit := 2 * bit;
    }
    assert payload[..|payload|] == payload;
    n := Signed(mask);
  }

  method ReadInt32(payload: seq<byte>) returns (n: int)
    ensures n == Signed(BigEndian(payload))
  {
    var value: uint32 := 0;
    for i := 0 to |payload|
      invariant value == BigEndian(payload[..i])
    {
      assert payload[..i + 1][..i] == payload[..i];
      value := (value * 0x100 + payload[i]) % 0x1_0000_0000;
    }
    assert payload[..|payload|] == payload;
    n := Signed(value);
  }

  lemma TextAppend(bytes: seq<byte>, b: byte)
    ensures ToText([]) == "" && ToText(bytes + [b]) == ToText(bytes) + [b as char]
  {
  }

  lemma {:induction false} UpToZero(bytes: seq<byte>, i: nat)
    requires i <= |bytes| && (forall j :: 0 <= j < i ==> bytes[j] != 0) && (i < |bytes| ==> bytes[i] == 0)
    ensures BeforeZero(bytes) == bytes[..i]
  {
    if i > 0 {
      UpToZero(bytes[1..], i - 1);
    }
  }

  method ReadText(payload: seq<byte>) returns (text: string)
    ensures text == ToText(BeforeZero(payload))
  {
    hide ToText;
    hide BeforeZero;
    var i := 0;
    text := "";
    TextAppend([], 0);
    assert payload[..0] == [];
    while i < |payload| && payload[i] != 0
      invariant i <= |payload|
      invariant text == ToText(payload[..i])
      invariant forall j :: 0 <= j < i ==> payload[j] != 0
    {
      assert payload[..i + 1] == payload[..i] + [payload[i]];
      TextAppend(payload[..i], payload[i]);
      text := text + [payload[i] as char];
      i := i + 1;
    }
    UpToZero(payload, i);
  }

  class SomeIpKuksaBridge {
    var mappings: seq<BridgeMapping>
    const broker: SignalBroker
    var requests: seq<Message>

    constructor (broker: SignalBroker)
      ensures this.broker == broker && mappings == [] && requests == []
    {
      this.broker := broker;
      mappings, requests := [], [];
    }

    method AddMapping(m: BridgeMapping)
      modifies this`mappings
      ensures mappings == old(mappings) + [m]
    {
      mappings := mappings + [m];
    }

    method OnSomeIpEvent(e: Message)
      modifies broker
      ensures match BridgeEvent(mappings, e)
              case None => broker.published == old(broker.published) && broker.store == old(broker.store)
              case Some(p) =>
                && broker.published == old(broker.published) + [p]
                && broker.store == old(broker.store)[p.path := p.value]
    {
      for i := 0 to |mappings|
        invariant BridgeEvent(mappings, e) == BridgeEvent(mappings[i..], e)
        invariant broker.published == old(broker.published) && broker.store == old(broker.store)
      {
        var m := mappings[i];
        assert mappings[i..][1..] == mappings[i + 1..];
        if Handles(m, e.service, e.id) {
          if e.payload == [] {
            return;
          }
          match m.dataType {
            case Bool =>
              broker.Publish(m.path, BoolValue(e.payload[|e.payload| - 1] != 0));
            case Float =>
              if |e.payload| >= 4 {
                broker.Publish(m.path, FloatValue(Float32.Deserialize(e.payload)));
              }
            case Bitmask =>
              var n := ReadMask(e.payload);
              broker.Publish(m.path, IntValue(n));
            case Text =>
              var text := ReadText(e.payload);
              broker.Publish(m.path, StringValue(text));
            case _ =>
              var n := ReadInt32(e.payload);
              broker.Publish(m.path, IntValue(n));
          }
          return;
        }
      }
    }

    method OnSignalChanged(m: BridgeMapping, value: SignalValue)
      modifies this`requests
      ensures requests == old(requests) + [CommandRequest(m, value)]
    {
      var id, payload := m.id, [];
      if m.dataType == Packed2Bytes {
        if value.IntValue? {
          payload := [value.number / 0x100 % 0x100, value.number % 0x100];
        }
      } else if value.BoolValue? {
        if !value.flag && m.falseMethod != 0 {
          id := m.falseMethod;
        }
        payload := [if value.flag then 1 else 0];
      }
      requests := requests + [Message(m.service, id, payload)];
    }
  }
}
