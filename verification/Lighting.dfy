/** The lighting controller: three lights, one pin each, one event carrying all three. */
module Lighting {
  import opened Ports
  import opened VehicleModes
  import opened Boards

  const LIGHT_COUNT := 3
  const SET_LIGHT_STATE: uint16 := 0x0001
  const GET_LIGHT_STATUS: uint16 := 0x0002
  const LIGHTING_DID: uint16 := 0xF100

  type Pins = s: seq<nat> | |s| == LIGHT_COUNT witness [0, 1, 2]
  type Lights = s: seq<bool> | |s| == LIGHT_COUNT witness [false, false, false]

  function Bytes(on: seq<bool>): (bytes: seq<byte>)
    ensures |bytes| == |on|
    ensures forall i :: 0 <= i < |on| ==> bytes[i] == if on[i] then 1 else 0
  {
    seq(|on|, i requires 0 <= i < |on| => if on[i] then 1 else 0)
  }

  datatype Lamps = Lamps(on: Lights, board: Board) {
    /** Drives the pin always, but raises an event only when the light changes. Unknown lights are refused. */
    function Set(pins: Pins, id: byte, state: bool): (Lamps, bool) {
      if id >= LIGHT_COUNT then
        (this, false)
      else
        var on' := on[id := state];
        var driven := board.Drive(pins[id], state);
        if on[id] == state then (Lamps(on', driven), true)
        else (Lamps(on', driven.Send(Message(LIGHTING, EVENT, Bytes(on')))), true)
    }

    function AllOff(pins: Pins): Lamps {
      Set(pins, 0, false).0.Set(pins, 1, false).0.Set(pins, 2, false).0
    }

    function OnModeChanged(pins: Pins, mode: byte): Lamps {
      if mode == OFF then AllOff(pins) else this
    }

    function IoControl(pins: Pins, did: uint16, param: seq<byte>): (Lamps, bool) {
      if did != LIGHTING_DID || |param| < 2 then (this, false) else Set(pins, param[0], param[1] != 0)
    }
  }

  class LightingController {
    const gpio: GpioPort
    const someip: EventSender
    const pins: Pins
    const states: array<bool>
    ghost const bus: SignalBus

    constructor (ghost bus: SignalBus, gpio: GpioPort, someip: EventSender, pins: Pins)
      ensures this.bus == bus && this.gpio == gpio && this.someip == someip && this.pins == pins
      ensures fresh(states) && states.Length == LIGHT_COUNT
      ensures states[..] == [false, false, false]
    {
      this.bus, this.gpio, this.someip, this.pins := bus, gpio, someip, pins;
      states := new bool[LIGHT_COUNT](_ => false);
    }

    predicate Valid() {
      states.Length == LIGHT_COUNT
    }

    ghost function View(): Lamps
      requires Valid()
      reads states, bus, gpio, someip
    {
      Lamps(states[..], Snapshot(bus, gpio, someip))
    }

    method Payload() returns (payload: seq<byte>)
      requires Valid()
      ensures payload == Bytes(states[..])
    {
      payload := [];
      for i := 0 to states.Length
        invariant payload == Bytes(states[..i])
      {
        payload := payload + [if states[i] then 1 else 0];
      }
    }

    method SetLightState(id: byte, on: bool) returns (ok: bool)
      requires Valid()
      modifies states, gpio, someip
      ensures (View(), ok) == old(View()).Set(pins, id, on)
    {
      if id >= LIGHT_COUNT {
        return false;
      }
      var previous := states[id];
      states[id] := on;
      gpio.Write(pins[id], on);
      if previous != on {
        var payload := Payload();
        someip.SendEvent(LIGHTING, EVENT, payload);
      }
      return true;
    }

    method AllOff()
      requires Valid()
      modifies states, gpio, someip
      ensures View() == old(View()).AllOff(pins)
    {
      ghost var start := View();
      var i: byte := 0;
      while i < LIGHT_COUNT
        invariant i <= LIGHT_COUNT
        invariant View() ==
                  (if i == 0 then start
                   else if i == 1 then start.Set(pins, 0, false).0
                   else if i == 2 then start.Set(pins, 0, false).0.Set(pins, 1, false).0
                   else start.AllOff(pins))
      {
        var _ := SetLightState(i, false);
        i := i + 1;
      }
    }

    method OnModeChanged(mode: byte)
      requires Valid()
      modifies states, gpio, someip
      ensures View() == old(View()).OnModeChanged(pins, mode)
    {
      if mode == OFF {
        AllOff();
      }
    }

    method IoControl(did: uint16, param: seq<byte>) returns (ok: bool)
      requires Valid()
      modifies states, gpio, someip
      ensures (View(), ok) == old(View()).IoControl(pins, did, param)
    {
      if did != LIGHTING_DID || |param| < 2 {
        return false;
      }
      ok := SetLightState(param[0], param[1] != 0);
    }
  }
}
