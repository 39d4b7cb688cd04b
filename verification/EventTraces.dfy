/** What a client can conclude from the events alone, and what the pins show. */
module EventTraces {
  import opened Ports
  import opened VehicleModes
  import opened Boards
  import opened DoorLock
  import opened Lighting
  import opened BodyEcu
  import opened EcuInvariants
  import Float32

  /** The payloads of a service's events, in order. */
  function Payloads(events: seq<Message>, service: uint16): seq<seq<byte>> {
    if events == [] then []
    else
      var before, e := Payloads(events[..|events| - 1], service), events[|events| - 1];
      if e.service == service && e.id == EVENT then before + [e.payload] else before
  }

  /** The last byte of the last payload, or what held at the start. */
  function LastByte(payloads: seq<seq<byte>>, start: byte): byte {
    if payloads == [] || payloads[|payloads| - 1] == [] then start
    else var p := payloads[|payloads| - 1]; p[|p| - 1]
  }

  /**
   * Door events carry old and new state; each starts where the one before ended, the first at Unlocked, and the two
   * differ unless the door has failed.
   */
  ghost predicate DoorChain(d: seq<seq<byte>>) {
    forall i :: 0 <= i < |d| ==>
      |d[i]| == 2 && d[i][0] == LastByte(d[..i], Code(Unlocked)) && (d[i][0] != d[i][1] || d[i][0] == Code(Error))
  }

  /** Mode events walk the mode graph from Off and never repeat a mode. */
  ghost predicate ModePath(m: seq<seq<byte>>) {
    forall i :: 0 <= i < |m| ==>
      && |m[i]| == 1 && m[i][0] != LastByte(m[..i], OFF) && ValidTransition(LastByte(m[..i], OFF), m[i][0])
  }

  function LastImage(v: seq<seq<byte>>): uint32 {
    if v == [] then 0 else Float32.Deserialize(v[|v| - 1])
  }

  /** No two speed events in a row carry the same speed; the first is not 0. */
  ghost predicate SpeedsDiffer(v: seq<seq<byte>>) {
    forall i :: 0 <= i < |v| ==> |v[i]| == 4 && Float32.Deserialize(v[i]) != LastImage(v[..i])
  }

  function LastLights(l: seq<seq<byte>>): seq<byte> {
    if l == [] then [0, 0, 0] else l[|l| - 1]
  }

  /** No two light events in a row carry the same lights; the first does not say that all are off. */
  ghost predicate LightsDiffer(l: seq<seq<byte>>) {
    forall i :: 0 <= i < |l| ==> |l[i]| == 3 && l[i] != LastLights(l[..i])
  }

  lemma OneMore(a: seq<seq<byte>>, p: seq<byte>)
    ensures LightsDiffer(a) && |p| == 3 && p != LastLights(a) ==>
              LightsDiffer(a + [p]) && LastLights(a + [p]) == p
    ensures DoorChain(a) && |p| == 2 && p[0] == LastByte(a, Code(Unlocked)) && (p[0] != p[1] || p[0] == Code(Error)) ==>
              DoorChain(a + [p]) && LastByte(a + [p], Code(Unlocked)) == p[1]
    ensures ModePath(a) && |p| == 1 && p[0] != LastByte(a, OFF) && ValidTransition(LastByte(a, OFF), p[0]) ==>
              ModePath(a + [p]) && LastByte(a + [p], OFF) == p[0]
    ensures SpeedsDiffer(a) && |p| == 4 && Float32.Deserialize(p) != LastImage(a) ==>
              SpeedsDiffer(a + [p]) && LastImage(a + [p]) == Float32.Deserialize(p)
  {
    hide Float32.Deserialize;
    assert forall i :: 0 <= i < |a| ==> (a + [p])[..i] == a[..i];
    assert (a + [p])[..|a|] == a;
  }

  /** The flags and fields of a replay say of the event sequence what their names suggest. */
  lemma {:induction false} ReplayMeans(events: seq<Message>)
    ensures var m := Replay(events);
            m.known && m.doorChained && m.modePath && m.lightsFresh && m.speedFresh ==>
              && DoorChain(Payloads(events, DOOR_LOCK)) && m.door == LastByte(Payloads(events, DOOR_LOCK), 0)
              && (m.doorTold <==> Payloads(events, DOOR_LOCK) != [])
              && ModePath(Payloads(events, VEHICLE_MODE)) && m.mode == LastByte(Payloads(events, VEHICLE_MODE), OFF)
              && SpeedsDiffer(Payloads(events, SPEED_SENSOR))
              && m.speed == LastImage(Payloads(events, SPEED_SENSOR))
              && LightsDiffer(Payloads(events, LIGHTING)) && m.lights == LastLights(Payloads(events, LIGHTING))
  {
    if events != [] {
      var before, e := events[..|events| - 1], events[|events| - 1];
      ReplayMeans(before);
      OneMore(Payloads(before, e.service), e.payload);
      hide Float32.Deserialize;
      hide DoorChain;
      hide ModePath;
      hide SpeedsDiffer;
      hide LightsDiffer;
      hide LastLights;
      hide LastByte;
      hide LastImage;
    }
  }

  /** The events of any run determine the controllers' states at its end. */
  lemma EventsDetermineState(w: Wiring, run: seq<Input>)
    ensures var s := After(w, POWERED, run);
            var door, mode := Payloads(s.board.sent, DOOR_LOCK), Payloads(s.board.sent, VEHICLE_MODE);
            var speed, light := Payloads(s.board.sent, SPEED_SENSOR), Payloads(s.board.sent, LIGHTING);
            && DoorChain(door) && Code(s.door) == LastByte(door, Code(Unlocked))
            && (DoorIsLocked in s.board.bus <==> door != [])
            && ModePath(mode) && s.mode == LastByte(mode, OFF)
            && SpeedsDiffer(speed) && Float32.Image(s.sim.speed) == LastImage(speed)
            && LightsDiffer(light) && Bytes(s.lights) == LastLights(light)
  {
    AlwaysConsistent(w, run);
    ReplayMeans(After(w, POWERED, run).board.sent);
    hide After;
    hide Replay;
    hide Float32.Image;
    hide Payloads;
  }

  // ----- The pins -----

  /** In every reachable state the pins show lights and lock. */
  ghost predicate PinsAlwaysAgree(w: Wiring) {
    forall run: seq<Input> ::
      var s := After(w, POWERED, run);
      Driven(s.board.gpio, w.lockPin, w.lightPins, s.door, s.lights)
  }

  function SwitchOn(id: byte): Input {
    MethodCall(LIGHTING, SET_LIGHT_STATE, [id, 1])
  }

  lemma FirstStep(w: Wiring, i: Input)
    ensures After(w, POWERED, [i]) == Step(w, POWERED, i)
  {
    hide Step;
    assert [i][..0] == [];
    assert After(w, POWERED, []) == POWERED;
  }

  lemma SwitchedOn(w: Wiring, id: byte)
    requires id < LIGHT_COUNT && Reaches(w, LIGHTING, SET_LIGHT_STATE, LIGHTING, SET_LIGHT_STATE)
    ensures var s := After(w, POWERED, [SwitchOn(id)]);
            && s.board.gpio == map[w.lightPins[id] := true]
            && s.door == Unlocked && s.lights == [false, false, false][id := true]
  {
    FirstStep(w, SwitchOn(id));
    hide After;
    hide HandlerOf;
  }

  /** Where lights can be switched, the pins tell the truth in all reachable states iff no two functions share one. */
  lemma PinsAgreeIffDisjoint(w: Wiring)
    requires Reaches(w, LIGHTING, SET_LIGHT_STATE, LIGHTING, SET_LIGHT_STATE)
    ensures PinsAlwaysAgree(w) <==> PinsDisjoint(w.lockPin, w.lightPins)
  {
    if PinsDisjoint(w.lockPin, w.lightPins) {
      forall run: seq<Input>
        ensures var s := After(w, POWERED, run);
                Driven(s.board.gpio, w.lockPin, w.lightPins, s.door, s.lights)
      {
        AlwaysConsistent(w, run);
        hide After;
        hide Replay;
      }
    } else {
      var id: byte :|
        id < LIGHT_COUNT &&
        (w.lightPins[id] == w.lockPin ||
         exists j :: 0 <= j < LIGHT_COUNT && j != id && w.lightPins[j] == w.lightPins[id]);
      SwitchedOn(w, id);
      var s := After(w, POWERED, [SwitchOn(id)]);
      if w.lightPins[id] != w.lockPin {
        var j :| 0 <= j < LIGHT_COUNT && j != id && w.lightPins[j] == w.lightPins[id];
        assert Level(s.board.gpio, w.lightPins[j]) && !s.lights[j];
      }
      assert !Driven(s.board.gpio, w.lockPin, w.lightPins, s.door, s.lights);
    }
  }
}
