/** The CAN gateway: SOME/IP messages to CAN frames and back, by indices over a list of mappings. */
module CanGateway {
  import opened Ports

  datatype Direction = SomeIpToCan | CanToSomeIp

  datatype Mapping = Mapping(
    direction: Direction, service: uint16, method_: uint16, event: uint16, canId: uint32, dlc: byte)

  const FRAME_SIZE := 64

  type FrameData = d: seq<byte> | |d| == FRAME_SIZE witness seq(FRAME_SIZE, _ => 0)

  datatype CanFrame = CanFrame(id: uint32, dlc: byte, data: FrameData)

  // ----- Translation -----

  function Zeros(n: nat): (z: seq<byte>)
    ensures |z| == n
  {
    seq(n, _ => 0)
  }

  function Min(a: nat, b: nat): nat {
    if a < b then a else b
  }

  /** Cut or padded with zeros to n bytes. */
  function Fit(payload: seq<byte>, n: nat): (r: seq<byte>)
    ensures |r| == n
  {
    if |payload| >= n then payload[..n] else payload + Zeros(n - |payload|)
  }

  /** The frame a payload becomes. */
  function ToFrame(canId: uint32, dlc: byte, payload: seq<byte>): CanFrame {
    var length := Min(dlc, FRAME_SIZE);
    CanFrame(canId, length, Fit(Fit(payload, length), FRAME_SIZE))
  }

  function FramePayload(frame: CanFrame): seq<byte> {
    frame.data[..Min(frame.dlc, FRAME_SIZE)]
  }

  /** Copies as much of the payload as the length code allows into a buffer of zeros. */
  method SomeIpToCanFrame(canId: uint32, dlc: byte, payload: seq<byte>) returns (frame: CanFrame)
    ensures frame == ToFrame(canId, dlc, payload)
    ensures frame.id == canId && frame.dlc == Min(dlc, FRAME_SIZE)
    ensures forall i :: 0 <= i < FRAME_SIZE ==>
              frame.data[i] == if i < frame.dlc && i < |payload| then payload[i] else 0
  {
    var data := new byte[FRAME_SIZE](_ => 0);
    var length := if dlc < FRAME_SIZE then dlc else FRAME_SIZE;
    var count := if length < |payload| then length else |payload|;
    for i := 0 to count
      invariant data[..] == payload[..i] + Zeros(FRAME_SIZE - i)
    {
      data[i] := payload[i];
    }
    frame := CanFrame(canId, length, data[..]);
  }

  /** A payload sent through a frame arrives cut or padded with zeros to the frame's length, else unchanged. */
  lemma PayloadRoundTrip(canId: uint32, dlc: byte, payload: seq<byte>)
    ensures var arrived := FramePayload(ToFrame(canId, dlc, payload));
            && |arrived| == Min(dlc, FRAME_SIZE)
            && (forall i :: 0 <= i < |arrived| ==> arrived[i] == if i < |payload| then payload[i] else 0)
            && (arrived == payload <==> |payload| == Min(dlc, FRAME_SIZE))
  {
  }

  /** A frame sent through a payload is the same frame, iff its length code is honest and its tail is zero. */
  lemma FrameRoundTrip(frame: CanFrame)
    ensures ToFrame(frame.id, frame.dlc, FramePayload(frame)) == frame <==>
            frame.dlc <= FRAME_SIZE && forall i :: frame.dlc <= i < FRAME_SIZE ==> frame.data[i] == 0
  {
    var payload := FramePayload(frame);
    var again := ToFrame(frame.id, frame.dlc, payload);
    assert again.data == payload + Zeros(FRAME_SIZE - |payload|);
    assert frame.data == payload + frame.data[|payload|..];
    if again.data == frame.data {
      forall i | |payload| <= i < FRAME_SIZE
        ensures frame.data[i] == 0
      {
        assert again.data[i] == 0;
      }
    }
  }

  // ----- The indices -----

  /** Service in the high half, method in the low half. */
  function SomeIpKey(service: uint16, method_: uint16): uint32 {
    service as int * 0x1_0000 + method_
  }

  lemma KeysDistinct(s1: uint16, m1: uint16, s2: uint16, m2: uint16)
    ensures SomeIpKey(s1, m1) == SomeIpKey(s2, m2) <==> s1 == s2 && m1 == m2
  {
  }

  /** Which mappings a SOME/IP message or a CAN frame is meant for. */
  predicate ForMessage(m: Mapping, service: uint16, method_: uint16) {
    m.direction == SomeIpToCan && m.service == service && m.method_ == method_
  }

  predicate ForFrame(m: Mapping, canId: uint32) {
    m.direction == CanToSomeIp && m.canId == canId
  }

  /** The last mapping a message is meant for, as a scan from the back finds it. */
  function MessageMapping(mappings: seq<Mapping>, service: uint16, method_: uint16): Option<Mapping> {
    if mappings == [] then None
    else
      var m := mappings[|mappings| - 1];
      if ForMessage(m, service, method_) then Some(m)
      else MessageMapping(mappings[..|mappings| - 1], service, method_)
  }

  /** The last mapping a frame is meant for. */
  function FrameMapping(mappings: seq<Mapping>, canId: uint32): Option<Mapping> {
    if mappings == [] then None
    else
      var m := mappings[|mappings| - 1];
      if ForFrame(m, canId) then Some(m) else FrameMapping(mappings[..|mappings| - 1], canId)
  }

  /** A mapping to CAN is chosen iff it has service and method and no later one does; none iff none does. */
  lemma {:induction false} MessageMappingIsLast(mappings: seq<Mapping>, service: uint16, method_: uint16)
    ensures match MessageMapping(mappings, service, method_)
            case None =>
              forall m :: m in mappings ==> m.direction.CanToSomeIp? || m.service != service || m.method_ != method_
            case Some(m) =>
              exists i :: 0 <= i < |mappings| && mappings[i] == m &&
                          m.direction == SomeIpToCan && m.service == service && m.method_ == method_ &&
                          forall j :: i < j < |mappings| ==>
                            mappings[j].direction.CanToSomeIp? || mappings[j].service != service ||
                            mappings[j].method_ != method_
  {
    if mappings != [] && !ForMessage(mappings[|mappings| - 1], service, method_) {
      var before := mappings[..|mappings| - 1];
      MessageMappingIsLast(before, service, method_);
      assert forall m :: m in mappings ==> m in before || m == mappings[|mappings| - 1];
      assert forall i :: 0 <= i < |before| ==> mappings[i] == before[i];
    }
  }

  /** A mapping from CAN is chosen iff it has the identifier and no later one does; none iff none does. */
  lemma {:induction false} FrameMappingIsLast(mappings: seq<Mapping>, canId: uint32)
    ensures match FrameMapping(mappings, canId)
            case None => forall m :: m in mappings ==> m.direction.SomeIpToCan? || m.canId != canId
            case Some(m) =>
              exists i :: 0 <= i < |mappings| && mappings[i] == m && m.direction == CanToSomeIp && m.canId == canId &&
                          forall j :: i < j < |mappings| ==>
                            mappings[j].direction.SomeIpToCan? || mappings[j].canId != canId
  {
    if mappings != [] && !ForFrame(mappings[|mappings| - 1], canId) {
      var before := mappings[..|mappings| - 1];
      FrameMappingIsLast(before, canId);
      assert forall m :: m in mappings ==> m in before || m == mappings[|mappings| - 1];
      assert forall i :: 0 <= i < |before| ==> mappings[i] == before[i];
    }
  }

  /** An index entry is a position in the mapping list, standing for a pointer into it. */
  function Lookup(index: map<uint32, nat>, mappings: seq<Mapping>, key: uint32): Option<Mapping> {
    if key in index && index[key] < |mappings| then Some(mappings[index[key]]) else None
  }

  class Gateway {
    var mappings: seq<Mapping>
    var toCan: map<uint32, nat>
    var toSomeIp: map<uint32, nat>
    var running: bool
    var frames: seq<CanFrame>
    var events: seq<Message>
    /** The mappings at the last start. */
    ghost var indexed: seq<Mapping>

    constructor ()
      ensures Valid()
      ensures mappings == indexed == [] && !running && frames == [] && events == []
    {
      mappings, toCan, toSomeIp, running, frames, events, indexed := [], map[], map[], false, [], [], [];
    }

    /** Both indices agree with a scan of the mappings they were built from. */
    ghost predicate Valid()
      reads this
    {
      && indexed <= mappings
      && (forall key :: key in toCan ==> toCan[key] < |indexed|)
      && (forall key :: key in toSomeIp ==> toSomeIp[key] < |indexed|)
      && (forall s, m :: Lookup(toCan, indexed, SomeIpKey(s, m)) == MessageMapping(indexed, s, m))
      && (forall id :: Lookup(toSomeIp, indexed, id) == FrameMapping(indexed, id))
    }

    /** The new mapping is used after the next start only. */
    method AddMapping(m: Mapping)
      requires Valid()
      modifies this`mappings
      ensures Valid() && mappings == old(mappings) + [m]
    {
      mappings := mappings + [m];
    }

    method BuildIndices()
      modifies this`toCan, this`toSomeIp, this`indexed
      ensures Valid() && indexed == mappings
    {
      toCan, toSomeIp := map[], map[];
      for i := 0 to |mappings|
        invariant forall key :: key in toCan ==> toCan[key] < i
        invariant forall key :: key in toSomeIp ==> toSomeIp[key] < i
        invariant forall s, m :: Lookup(toCan, mappings, SomeIpKey(s, m)) == MessageMapping(mappings[..i], s, m)
        invariant forall id :: Lookup(toSomeIp, mappings, id) == FrameMapping(mappings[..i], id)
      {
        var m := mappings[i];
        assert mappings[..i + 1][..i] == mappings[..i];
        if m.direction == SomeIpToCan {
          toCan := toCan[SomeIpKey(m.service, m.method_) := i];
        } else {
          toSomeIp := toSomeIp[m.canId := i];
        }
      }
      assert mappings[..|mappings|] == mappings;
      indexed := mappings;
    }

    method Start()
      modifies this`toCan, this`toSomeIp, this`indexed, this`running
      ensures Valid() && indexed == mappings && running
    {
      BuildIndices();
      running := true;
    }

    /** Stopping leaves the indices alone: messages go on being forwarded. */
    method Stop()
      requires Valid()
      modifies this`running
      ensures Valid() && !running
    {
      running := false;
    }

    method OnSomeIpMessage(service: uint16, method_: uint16, payload: seq<byte>)
      requires Valid()
      modifies this`frames
      ensures Valid()
      ensures match MessageMapping(indexed, service, method_)
              case None => frames == old(frames)
              case Some(m) => frames == old(frames) + [ToFrame(m.canId, m.dlc, payload)]
    {
      var key := SomeIpKey(service, method_);
      assert Lookup(toCan, indexed, key) == MessageMapping(indexed, service, method_);
      if key !in toCan {
        return;
      }
      var m := mappings[toCan[key]];
      var frame := SomeIpToCanFrame(m.canId, m.dlc, payload);
      frames := frames + [frame];
    }

    method OnCanFrame(frame: CanFrame)
      requires Valid()
      modifies this`events
      ensures Valid()
      ensures match FrameMapping(indexed, frame.id)
              case None => events == old(events)
              case Some(m) => events == old(events) + [Message(m.service, m.event, FramePayload(frame))]
    {
      assert Lookup(toSomeIp, indexed, frame.id) == FrameMapping(indexed, frame.id);
      if frame.id !in toSomeIp {
        return;
      }
      var m := mappings[toSomeIp[frame.id]];
      events := events + [Message(m.service, m.event, FramePayload(frame))];
    }
  }
}
