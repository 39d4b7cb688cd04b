/** What the controllers write to: the signal bus, the output pins and the SOME/IP events, as one value. */
module Boards {
  import opened Ports
  import opened VehicleModes
  import Float32

  /** Everything a client can tell from the events alone. */
  datatype Mirror = Mirror(
    known: bool,
    door: byte, doorTold: bool, doorChained: bool,
    mode: byte, modePath: bool,
    lights: seq<byte>, lightsFresh: bool,
    speed: uint32, speedFresh: bool)

  const BLANK := Mirror(true, 0, false, true, OFF, true, [0, 0, 0], true, 0, true)

  /**
   * One more event: the flags record whether all events are of the four known forms, door events chain, mode
   * events follow the graph, and each event is news: only a failed door tells twice that it has failed.
   */
  function Observe(m: Mirror, e: Message): Mirror {
    if e.id != EVENT then m.(known := false)
    else if e.service == DOOR_LOCK && |e.payload| == 2 then
      m.(door := e.payload[1], doorTold := true,
      doorChained := m.doorChained && e.payload[0] == m.door && (e.payload[1] != m.door || m.door == 2))
    else if e.service == VEHICLE_MODE && |e.payload| == 1 then
      m.(mode := e.payload[0],
      modePath := m.modePath && e.payload[0] != m.mode && ValidTransition(m.mode, e.payload[0]))
    else if e.service == LIGHTING && |e.payload| == 3 then
      m.(lights := e.payload, lightsFresh := m.lightsFresh && e.payload != m.lights)
    else if e.service == SPEED_SENSOR && |e.payload| == 4 then
      var image := Float32.Deserialize(e.payload);
      m.(speed := image, speedFresh := m.speedFresh && image != m.speed)
    else m.(known := false)
  }

  function Replay(events: seq<Message>): Mirror {
    if events == [] then BLANK
    else Observe(Replay(events[..|events| - 1]), events[|events| - 1])
  }

  lemma ReplaySend(events: seq<Message>, e: Message)
    ensures Replay(events + [e]) == Observe(Replay(events), e)
  {
    assert (events + [e])[..|events|] == events;
  }

  datatype Board = Board(bus: Store, gpio: map<nat, bool>, sent: seq<Message>) {
    function Send(e: Message): Board {
      Board(bus, gpio, sent + [e])
    }

    function Put(path: SignalPath, value: SignalValue): Board {
      this.(bus := bus[path := value])
    }

    function Drive(pin: nat, level: bool): Board {
      this.(gpio := gpio[pin := level])
    }
  }

  const POWER_ON := Board(map[], map[], [])

  /** The sending side of the SOME/IP service: events in the order they are raised. */
  class EventSender {
    var sent: seq<Message>

    constructor ()
      ensures sent == []
    {
      sent := [];
    }

    method SendEvent(service: uint16, id: uint16, payload: seq<byte>)
      modifies this
      ensures sent == old(sent) + [Message(service, id, payload)]
    {
      sent := sent + [Message(service, id, payload)];
    }
  }

  function Snapshot(bus: SignalBus, gpio: GpioPort, someip: EventSender): Board
    reads bus, gpio, someip
  {
    Board(bus.store, gpio.levels, someip.sent)
  }
}
