/** The vehicle mode, as an observer can tell it from inputs: which changes happen, and the way to Off. */
module ModeLaw {
  import opened Ports
  import opened VehicleModes
  import opened Boards
  import opened DoorLock
  import opened Lighting
  import opened SpeedSimulator
  import opened BodyEcu
  import opened EcuInvariants
  import opened EventTraces
  import opened DoorSafety
  import opened IgnitionSafety
  import opened WholeRuns
  import Float32

  /** The modes that may follow each other: 0 is Off, 1 Accessory, 2 Run, 3 Crank. */
  const EDGES: set<(byte, byte)> := {(0, 1), (1, 0), (1, 2), (1, 3), (2, 1), (2, 3), (3, 1), (3, 2)}

  lemma EdgesAreValid(from: byte, to: byte)
    ensures ValidTransition(from, to) && from != to <==> (from, to) in EDGES
  {
  }

  /** A call of the mode manager's setter. */
  predicate Sets(w: Wiring, i: Input, target: byte) {
    && i.MethodCall? && HandlerOf(w.methods, i.service, i.method_) == Some(Own(0x1002, 2))
    && i.payload != [] && i.payload[0] == target
  }

  // ----- The mode after an input -----

  function NextMode(w: Wiring, s: Ecu, i: Input): byte {
    match i
    case BootUp => if s.mode == 0 then 1 else s.mode
    case StartButton(slotFree) =>
      if s.cranking then s.mode
      else if s.mode == 1 then if slotFree then 3 else 1
      else if s.mode == 2 && s.sim.speed == 0 then 1
      else s.mode
    case CrankTimerFires => if s.cranking && s.mode != 0 then 2 else s.mode
    case MethodCall(_, _, payload) =>
      if payload != [] && Sets(w, i, payload[0]) && (s.mode, payload[0]) in EDGES then payload[0] else s.mode
    case ModeShutdown => if s.mode == 1 then 0 else s.mode
    case _ => s.mode
  }

  function NextCranking(s: Ecu, i: Input): bool {
    match i
    case StartButton(slotFree) => s.cranking || (s.mode == 1 && slotFree)
    case CrankTimerFires => false
    case _ => s.cranking
  }

  lemma PressMode(w: Wiring, s: Ecu, slotFree: bool)
    requires s.mode <= 3 && (Rolling(s.board.bus) <==> s.sim.speed > 0)
    ensures var s' := IgnitionButton(w, s, slotFree);
            s'.mode == NextMode(w, s, StartButton(slotFree)) && s'.cranking == NextCranking(s, StartButton(slotFree))
  {
    hide SetMode;
    hide Rolling;
    SetModeDoor(w, s, ACCESSORY);
    SetModeDoor(w, s, CRANK);
    SetModeDoor(w, SetMode(w, s, CRANK).0, ACCESSORY);
  }

  lemma TimerMode(w: Wiring, s: Ecu)
    requires s.mode <= 3 && CrankTimed(s)
    ensures var s' := CrankTimer(w, s);
            s'.mode == NextMode(w, s, CrankTimerFires) && s'.cranking == NextCranking(s, CrankTimerFires)
  {
    hide SetMode;
    if s.crankTimers > 0 {
      SetModeDoor(w, s.(crankTimers := s.crankTimers - 1), RUN);
    }
  }

  lemma BootMode(w: Wiring, s: Ecu)
    ensures var s' := Boot(w, s); s'.mode == NextMode(w, s, BootUp) && s'.cranking == s.cranking
  {
    hide SetMode;
    SetModeDoor(w, s, ACCESSORY);
  }

  lemma CallMode(w: Wiring, s: Ecu, service: uint16, method_: uint16, payload: seq<byte>)
    requires s.mode <= 3
    ensures var i, s' := MethodCall(service, method_, payload), Request(w, s, service, method_, payload).0;
            s'.mode == NextMode(w, s, i) && s'.cranking == s.cranking
  {
    hide HandlerOf;
    RequestStep(w, s, service, method_, payload);
    if payload != [] {
      EdgesAreValid(s.mode, payload[0]);
    }
    hide Request;
    hide ValidTransition;
  }

  lemma StepMode(w: Wiring, s: Ecu, i: Input)
    requires s.mode <= 3 && CrankTimed(s) && (Rolling(s.board.bus) <==> s.sim.speed > 0)
    ensures Step(w, s, i).mode == NextMode(w, s, i) && Step(w, s, i).cranking == NextCranking(s, i)
  {
    hide Boot;
    hide IgnitionButton;
    hide CrankTimer;
    hide Request;
    hide Control;
    hide SetMode;
    hide Meter.Tick;
    hide Unsafe;
    hide HandlerOf;
    hide Rolling;
    match i {
      case BootUp => BootMode(w, s);
      case StartButton(slotFree) => PressMode(w, s, slotFree);
      case CrankTimerFires => TimerMode(w, s);
      case MethodCall(service, method_, payload) => CallMode(w, s, service, method_, payload);
      case DiagnosticRequest(request) =>
        if |request| >= 4 {
          ControlDoor(w, 0, s, Word(request[1], request[2]), request[3..]);
        }
      case ModeShutdown => SetModeDoor(w, s, OFF);
      case DoorButton =>
      case DoorShutdown =>
      case DoorCommandSignal(_) =>
      case DoorOpenSignal(_) =>
      case SpeedTick(_) =>
      case DoorFault =>
      case LightingShutdown =>
      case StoreDtc(_, _) =>
      case ClearDtcs =>
    }
  }

  /** Mode and cranking after any input of any run. */
  lemma ModeFollows(w: Wiring, run: seq<Input>, i: Input)
    ensures var s, s' := After(w, POWERED, run), After(w, POWERED, run + [i]);
            s'.mode == NextMode(w, s, i) && s'.cranking == NextCranking(s, i)
  {
    hide Step;
    hide NextMode;
    hide Rolling;
    OneMoreStep(w, POWERED, run, i);
    AlwaysConsistent(w, run);
    AlwaysCrankTimed(w, run);
    hide After;
    var s := After(w, POWERED, run);
    RollingIsSpeed(w, s);
    assert s.mode <= 3;
    hide Consistent;
    StepMode(w, s, i);
  }

  // ----- Which modes follow each other -----

  lemma OtherEvent(events: seq<Message>, e: Message, service: uint16)
    requires e.service != service
    ensures Payloads(events + [e], service) == Payloads(events, service)
  {
    assert (events + [e])[..|events|] == events;
  }

  lemma NotifyOneEvents(w: Wiring, o: Observer, s: Ecu, mode: byte)
    ensures Payloads(NotifyOne(w, o, s, mode).board.sent, VEHICLE_MODE) == Payloads(s.board.sent, VEHICLE_MODE)
  {
    hide Payloads;
    hide Unsafe;
    hide SpeedEvent;
    hide Bytes;
    match o {
      case LightingObserver =>
        var l := s.LampPart();
        LightEvents(l, w.lightPins, 0);
        LightEvents(l.Set(w.lightPins, 0, false).0, w.lightPins, 1);
        LightEvents(l.Set(w.lightPins, 0, false).0.Set(w.lightPins, 1, false).0, w.lightPins, 2);
        hide Lamps.Set;
      case DoorObserver =>
        OtherEvent(s.board.sent, Message(DOOR_LOCK, EVENT, [Code(s.door), Code(Locked)]), VEHICLE_MODE);
      case SpeedObserver =>
        SpeedEvents(s.board.sent);
    }
  }

  lemma SpeedEvents(sent: seq<Message>)
    ensures Payloads(sent + [SpeedEvent(0)], VEHICLE_MODE) == Payloads(sent, VEHICLE_MODE)
  {
    OtherEvent(sent, SpeedEvent(0), VEHICLE_MODE);
  }

  lemma LightEvents(l: Lamps, pins: Pins, id: byte)
    ensures Payloads(l.Set(pins, id, false).0.board.sent, VEHICLE_MODE) == Payloads(l.board.sent, VEHICLE_MODE)
  {
    hide Payloads;
    hide Bytes;
    if id < LIGHT_COUNT {
      OtherEvent(l.board.sent, Message(LIGHTING, EVENT, Bytes(l.on[id := false])), VEHICLE_MODE);
    }
  }

  lemma {:induction false} NotifyEvents(w: Wiring, n: nat, s: Ecu, mode: byte)
    requires n <= |w.observers|
    ensures Payloads(Notify(w, n, s, mode).board.sent, VEHICLE_MODE) == Payloads(s.board.sent, VEHICLE_MODE)
  {
    hide NotifyOne;
    hide Payloads;
    if n > 0 {
      NotifyEvents(w, n - 1, s, mode);
      NotifyOneEvents(w, w.observers[n - 1], Notify(w, n - 1, s, mode), mode);
    }
  }

  /** A permitted change is told in one mode event. */
  lemma ChangeTold(w: Wiring, s: Ecu, target: byte)
    requires (s.mode, target) in EDGES
    ensures var (s', ok) := SetMode(w, s, target);
            ok && s'.mode == target && Payloads(s'.board.sent, 0x1002) == Payloads(s.board.sent, 0x1002) + [[target]]
  {
    EdgesAreValid(s.mode, target);
    SetModeDoor(w, s, target);
    NotifyEvents(w, |w.observers|, Announce(s, target), target);
    assert (s.board.sent + [ModeEvent(target)])[..|s.board.sent|] == s.board.sent;
    hide Notify;
  }

  function ModeEvents(w: Wiring, run: seq<Input>): seq<seq<byte>> {
    Payloads(After(w, POWERED, run).board.sent, 0x1002)
  }

  /** Event k of a run tells the one mode and event k + 1 the other. */
  ghost predicate Follows(w: Wiring, run: seq<Input>, k: nat, from: byte, to: byte) {
    var told := ModeEvents(w, run);
    k + 1 < |told| && told[k] == [from] && told[k + 1] == [to]
  }

  function SetCall(target: byte): Input {
    MethodCall(0x1002, 2, [target])
  }

  /** A way to each mode, by calls of the setter. */
  function WayTo(mode: byte): seq<Input> {
    if mode == 0 then [SetCall(1)] + [SetCall(0)]
    else if mode == 1 then [SetCall(1)]
    else [SetCall(1)] + [SetCall(mode)]
  }

  lemma SetStep(w: Wiring, s: Ecu, target: byte)
    requires Reaches(w, 0x1002, 2, 0x1002, 2)
    ensures Step(w, s, SetCall(target)) == SetMode(w, s, target).0
  {
    hide SetMode;
    hide HandlerOf;
  }

  lemma OneCall(w: Wiring, run: seq<Input>, target: byte)
    requires Reaches(w, 0x1002, 2, 0x1002, 2) && (After(w, POWERED, run).mode, target) in EDGES
    ensures After(w, POWERED, run + [SetCall(target)]).mode == target
    ensures ModeEvents(w, run + [SetCall(target)]) == ModeEvents(w, run) + [[target]]
  {
    hide Step;
    hide SetMode;
    hide Payloads;
    OneMoreStep(w, POWERED, run, SetCall(target));
    hide After;
    SetStep(w, After(w, POWERED, run), target);
    ChangeTold(w, After(w, POWERED, run), target);
  }

  lemma WayLeads(w: Wiring, mode: byte)
    requires Reaches(w, 0x1002, 2, 0x1002, 2) && mode <= 3
    ensures After(w, POWERED, WayTo(mode)).mode == mode
    ensures var told := ModeEvents(w, WayTo(mode)); told != [] && told[|told| - 1] == [mode]
  {
    hide Reaches;
    hide Payloads;
    assert After(w, POWERED, []) == POWERED;
    OneCall(w, [], 1);
    assert [] + [SetCall(1)] == [SetCall(1)];
    hide After;
    hide ModeEvents;
    if mode != 1 {
      OneCall(w, [SetCall(1)], mode);
    }
  }

  /** Two told modes follow each other in some run iff they are one of the eight pairs. */
  lemma EightEdges(w: Wiring, from: byte, to: byte)
    requires Reaches(w, 0x1002, 2, 0x1002, 2)
    ensures (exists run, k :: Follows(w, run, k, from, to)) <==> (from, to) in EDGES
  {
    hide After;
    if (from, to) in EDGES {
      hide Reaches;
      hide ModeEvents;
      WayLeads(w, from);
      OneCall(w, WayTo(from), to);
      assert Follows(w, WayTo(from) + [SetCall(to)], |ModeEvents(w, WayTo(from))| - 1, from, to);
    }
    forall run, k | Follows(w, run, k, from, to)
      ensures (from, to) in EDGES
    {
      OnlyEdges(w, run, k, from, to);
    }
  }

  lemma OnlyEdges(w: Wiring, run: seq<Input>, k: nat, from: byte, to: byte)
    requires Follows(w, run, k, from, to)
    ensures (from, to) in EDGES
  {
    EventsDetermineState(w, run);
    hide After;
    var told := ModeEvents(w, run);
    assert told[..k + 1][|told[..k + 1]| - 1] == [from];
    assert LastByte(told[..k + 1], OFF) == from;
    EdgesAreValid(from, to);
  }

  // ----- Switching off -----

  /** From every reachable state two calls lead to Off. */
  lemma WayToOff(w: Wiring, run: seq<Input>)
    requires Reaches(w, 0x1002, 2, 0x1002, 2)
    ensures After(w, POWERED, run + [SetCall(1)]).mode == 1
    ensures After(w, POWERED, run + [SetCall(1)] + [SetCall(0)]).mode == 0
  {
    hide HandlerOf;
    ModeFollows(w, run, SetCall(1));
    ModeFollows(w, run + [SetCall(1)], SetCall(0));
    AlwaysConsistent(w, run);
    hide After;
    assert After(w, POWERED, run).mode <= 3;
    hide Replay;
  }

  // ----- In which order a change is told -----

  /** The service in which an observer of modes raises its events. */
  function ServiceOf(o: Observer): uint16 {
    match o
    case LightingObserver => 0x1000
    case DoorObserver => 0x1001
    case SpeedObserver => 0x1003
  }

  function Joined(blocks: seq<seq<Message>>): seq<Message> {
    if blocks == [] then [] else Joined(blocks[..|blocks| - 1]) + blocks[|blocks| - 1]
  }

  /** One block of events per observer, each of the observer's own service. */
  ghost predicate InTurn(observers: seq<Observer>, blocks: seq<seq<Message>>) {
    |blocks| == |observers|
    && forall k, e :: 0 <= k < |blocks| && e in blocks[k] ==> e.service == ServiceOf(observers[k])
  }

  lemma SetTells(l: Lamps, pins: Pins, id: byte) returns (block: seq<Message>)
    ensures l.Set(pins, id, false).0.board.sent == l.board.sent + block
    ensures forall e :: e in block ==> e.service == 0x1000
  {
    hide Bytes;
    block := if id < LIGHT_COUNT && l.on[id] then [Message(LIGHTING, EVENT, Bytes(l.on[id := false]))] else [];
  }

  lemma LampsTell(l: Lamps, pins: Pins) returns (block: seq<Message>)
    ensures l.AllOff(pins).board.sent == l.board.sent + block
    ensures forall e :: e in block ==> e.service == 0x1000
  {
    hide Lamps.Set;
    var l1 := l.Set(pins, 0, false).0;
    var l2 := l1.Set(pins, 1, false).0;
    var b0 := SetTells(l, pins, 0);
    var b1 := SetTells(l1, pins, 1);
    var b2 := SetTells(l2, pins, 2);
    block := b0 + b1 + b2;
  }

  lemma OneTells(w: Wiring, o: Observer, s: Ecu, mode: byte) returns (block: seq<Message>)
    ensures NotifyOne(w, o, s, mode).board.sent == s.board.sent + block
    ensures forall e :: e in block ==> e.service == ServiceOf(o)
  {
    hide Unsafe;
    hide Lamps.AllOff;
    hide Float32.Image;
    hide Float32.Serialize;
    match o {
      case LightingObserver =>
        block := LampsTell(s.LampPart(), w.lightPins);
        if mode != OFF {
          block := [];
        }
      case DoorObserver =>
        block := if mode == RUN && s.door == Unlocked && !Unsafe(s.board.bus)
          then [Message(DOOR_LOCK, EVENT, [Code(Unlocked), Code(Locked)])] else [];
      case SpeedObserver =>
        block := if mode != RUN && s.sim.lastSent != 0 then [SpeedEvent(0)] else [];
    }
  }

  lemma {:induction false} AllTell(w: Wiring, n: nat, s: Ecu, mode: byte) returns (blocks: seq<seq<Message>>)
    requires n <= |w.observers|
    ensures Notify(w, n, s, mode).board.sent == s.board.sent + Joined(blocks)
    ensures InTurn(w.observers[..n], blocks)
  {
    hide NotifyOne;
    if n == 0 {
      blocks := [];
    } else {
      var before := AllTell(w, n - 1, s, mode);
      var block := OneTells(w, w.observers[n - 1], Notify(w, n - 1, s, mode), mode);
      blocks := before + [block];
      assert blocks[..n - 1] == before;
      assert s.board.sent + Joined(before) + block == s.board.sent + (Joined(before) + block);
      assert w.observers[..n][..n - 1] == w.observers[..n - 1];
    }
  }

  /** A change of mode is told first by its own event, then by the observers in the order of their registration. */
  lemma ToldInOrder(w: Wiring, run: seq<Input>, target: byte) returns (blocks: seq<seq<Message>>)
    requires Reaches(w, 0x1002, 2, 0x1002, 2) && (After(w, POWERED, run).mode, target) in EDGES
    ensures After(w, POWERED, run + [SetCall(target)]).board.sent ==
            After(w, POWERED, run).board.sent + [Message(0x1002, 0x8001, [target])] + Joined(blocks)
    ensures InTurn(w.observers, blocks)
  {
    hide Step;
    OneMoreStep(w, POWERED, run, SetCall(target));
    hide After;
    var s := After(w, POWERED, run);
    SetStep(w, s, target);
    EdgesAreValid(s.mode, target);
    blocks := AllTell(w, |w.observers|, Announce(s, target), target);
    assert w.observers[..|w.observers|] == w.observers;
    hide Notify;
    hide Reaches;
  }
}
