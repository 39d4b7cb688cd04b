/** What a diagnostic tester can rely on over any sequence of requests (ISO 14229-1:2013). */
module UdsHistory {
  import opened Ports
  import opened VehicleModes
  import opened DoorLock
  import opened Lighting
  import opened SpeedSimulator
  import opened Diagnostics
  import opened BodyEcu
  import opened DoorSafety

  // ----- Routing: an identifier reaches its own provider only -----

  lemma {:induction false} ReadRoute(w: Wiring, i: nat, s: Ecu, did: uint16)
    requires i <= |w.providers|
    ensures ReadData(w, i, s, did) ==
            if did == LIGHTING_DID && LightingProvider in w.providers[i..] then Some(Bytes(s.lights))
            else if did == DOOR_DID && DoorProvider in w.providers[i..] then Some([Code(s.door)])
            else if did == VIN_DID && VehicleInfo in w.providers[i..] then Some(w.vin)
            else if did == SERIAL_DID && VehicleInfo in w.providers[i..] && w.serial != [] then Some(w.serial)
            else None
    decreases |w.providers| - i
  {
    if i < |w.providers| {
      ReadRoute(w, i + 1, s, did);
      assert w.providers[i..] == [w.providers[i]] + w.providers[i + 1..];
    }
  }

  lemma {:induction false} ControlRoute(w: Wiring, i: nat, s: Ecu, did: uint16, param: seq<byte>)
    requires i <= |w.providers|
    ensures Control(w, i, s, did, param) ==
            if did == LIGHTING_DID && LightingProvider in w.providers[i..]
            then ControlOne(w, LightingProvider, s, did, param)
            else if did == DOOR_DID && DoorProvider in w.providers[i..]
            then ControlOne(w, DoorProvider, s, did, param)
            else (s, false)
    decreases |w.providers| - i
  {
    if i < |w.providers| {
      var p := w.providers[i];
      assert w.providers[i..] == [p] + w.providers[i + 1..];
      ControlOneDoor(w, p, s, did, param);
      OtherIdentifier(w, p, s, did, param);
      hide ControlOne;
      ControlRoute(w, i + 1, s, did, param);
    }
  }

  lemma OtherIdentifier(w: Wiring, p: Provider, s: Ecu, did: uint16, param: seq<byte>)
    ensures ControlOne(w, p, s, did, param).1 ==>
              (p == LightingProvider && did == LIGHTING_DID) || (p == DoorProvider && did == DOOR_DID)
  {
    hide Lamps.Set;
    hide Door.Actuate;
  }

  // ----- The session -----

  /** The session named by the last accepted request of service 0x10. */
  function LastSession(run: seq<Input>): Session {
    if run == [] then Default
    else match run[|run| - 1]
      case DiagnosticRequest(r) =>
        if |r| >= 2 && r[0] == SESSION_CONTROL && r[1] == 0x01 then Default
        else if |r| >= 2 && r[0] == SESSION_CONTROL && r[1] == 0x03 then Extended
        else LastSession(run[..|run| - 1])
      case _ => LastSession(run[..|run| - 1])
  }

  predicate IsControl(request: seq<byte>) {
    request != [] && request[0] == IO_CONTROL
  }

  /** Only service 0x2F changes anything besides the session, and only in the extended session. */
  lemma DiagnosticsHarmless(w: Wiring, s: Ecu, request: seq<byte>)
    requires s.session != Extended || !IsControl(request)
    ensures Step(w, s, DiagnosticRequest(request)).(session := s.session) == s
  {
  }

  lemma SessionStep(w: Wiring, s: Ecu, i: Input)
    requires !i.DiagnosticRequest?
    ensures Step(w, s, i).session == s.session
  {
    hide SetMode;
    hide Meter.Tick;
    hide Unsafe;
    SetModeDoor(w, s, ACCESSORY);
    SetModeDoor(w, s, CRANK);
    SetModeDoor(w, SetMode(w, s, CRANK).0, ACCESSORY);
    SetModeDoor(w, s, OFF);
    if i.CrankTimerFires? && s.crankTimers > 0 {
      SetModeDoor(w, s.(crankTimers := s.crankTimers - 1), RUN);
    }
    if i.MethodCall? {
      RequestSession(w, s, i.service, i.method_, i.payload);
      hide Request;
    }
  }

  lemma RequestSession(w: Wiring, s: Ecu, service: uint16, method_: uint16, payload: seq<byte>)
    ensures Request(w, s, service, method_, payload).0.session == s.session
  {
    hide SetMode;
    hide HandlerOf;
    if payload != [] {
      SetModeDoor(w, s, payload[0]);
    }
  }

  lemma DiagnosticSession(w: Wiring, s: Ecu, r: seq<byte>)
    ensures Step(w, s, DiagnosticRequest(r)).session ==
            if |r| >= 2 && r[0] == SESSION_CONTROL && r[1] == 0x01 then Default
            else if |r| >= 2 && r[0] == SESSION_CONTROL && r[1] == 0x03 then Extended
            else s.session
  {
    hide Control;
    if |r| >= 4 {
      ControlDoor(w, 0, s, Word(r[1], r[2]), r[3..]);
    }
    hide Unsafe;
  }

  /** Over any run. */
  lemma {:induction false} SessionIsLastAccepted(w: Wiring, run: seq<Input>)
    ensures After(w, POWERED, run).session == LastSession(run)
  {
    hide Step;
    if run != [] {
      var s, i := After(w, POWERED, run[..|run| - 1]), run[|run| - 1];
      SessionIsLastAccepted(w, run[..|run| - 1]);
      if i.DiagnosticRequest? {
        DiagnosticSession(w, s, i.request);
      } else {
        SessionStep(w, s, i);
      }
    }
  }

  // ----- Controlling a light and reading it back -----

  function LightControl(param: seq<byte>): Input {
    DiagnosticRequest([IO_CONTROL, 0xF1, 0x00] + param)
  }

  function ReadLights(): Input {
    DiagnosticRequest([READ_DATA, 0xF1, 0x00])
  }

  /** When service 0x2F on the lights is accepted. */
  predicate Accepted(w: Wiring, s: Ecu, param: seq<byte>) {
    s.session == Extended && LightingProvider in w.providers && |param| >= 2 && param[0] < LIGHT_COUNT
  }

  lemma ControlLight(w: Wiring, s: Ecu, param: seq<byte>)
    ensures var (s', out) := StepWithOutput(w, s, LightControl(param));
            && (out == Diagnostic([0x6F, 0xF1, 0x00]) <==> Accepted(w, s, param))
            && (Accepted(w, s, param) ==>
                s' == s.WithLamps(s.LampPart().Set(w.lightPins, param[0], param[1] != 0).0))
            && (!Accepted(w, s, param) ==> s' == s && out.Diagnostic? && out.bytes[..2] == [0x7F, IO_CONTROL])
  {
    var request := [IO_CONTROL, 0xF1, 0x00] + param;
    assert request[3..] == param;
    ControlRoute(w, 0, s, LIGHTING_DID, param);
    assert w.providers[0..] == w.providers;
    hide Control;
    hide Lamps.Set;
    SetAccepts(s.LampPart(), w.lightPins, param);
  }

  lemma SetAccepts(l: Lamps, pins: Pins, param: seq<byte>)
    ensures |param| >= 2 ==> l.Set(pins, param[0], param[1] != 0).1 == (param[0] < LIGHT_COUNT)
    ensures |param| >= 2 && param[0] >= LIGHT_COUNT ==> l.Set(pins, param[0], param[1] != 0).0 == l
  {
  }

  /** An accepted control is read back at once: that light new, the others as they were. */
  lemma ControlReadBack(w: Wiring, s: Ecu, param: seq<byte>)
    requires Accepted(w, s, param)
    ensures var s' := Step(w, s, LightControl(param));
            && s'.lights == s.lights[param[0] := param[1] != 0]
            && s'.door == s.door && s'.mode == s.mode && s'.sim == s.sim
            && StepWithOutput(w, s', ReadLights()) == (s', Diagnostic([0x62, 0xF1, 0x00] + Bytes(s'.lights)))
  {
    ControlLight(w, s, param);
    var s' := Step(w, s, LightControl(param));
    ReadRoute(w, 0, s', LIGHTING_DID);
    assert w.providers[0..] == w.providers;
    hide Control;
    hide ReadData;
    hide Bytes;
    assert [READ_DATA, 0xF1 as byte, 0x00 as byte][0] == READ_DATA;
  }
}
