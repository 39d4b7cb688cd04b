/** Every byte a diagnostic tester is told, and when (ISO 14229-1:2013). */
module UdsLaw {
  import opened Ports
  import opened VehicleModes
  import opened DoorLock
  import opened Lighting
  import opened SpeedSimulator
  import opened Diagnostics
  import opened BodyEcu
  import opened DoorSafety
  import opened UdsHistory
  import opened WholeRuns

  // ----- Reading -----

  /** The data behind an identifier, if a provider for it is there. */
  function DataOf(w: Wiring, s: Ecu, hi: byte, lo: byte): Option<seq<byte>> {
    if hi == 0xF1 && lo == 0x00 && LightingProvider in w.providers then
      Some([if s.lights[0] then 1 else 0, if s.lights[1] then 1 else 0, if s.lights[2] then 1 else 0])
    else if hi == 0xF1 && lo == 0x01 && DoorProvider in w.providers then
      Some([match s.door case Unlocked => 0 case Locked => 1 case Error => 2])
    else if hi == 0xF1 && lo == 0x90 && VehicleInfo in w.providers then Some(w.vin)
    else if hi == 0xF1 && lo == 0x8C && VehicleInfo in w.providers && w.serial != [] then Some(w.serial)
    else None
  }

  lemma ReadIsData(w: Wiring, s: Ecu, hi: byte, lo: byte)
    ensures ReadData(w, 0, s, Word(hi, lo)) == DataOf(w, s, hi, lo)
  {
    hide ReadData;
    ReadRoute(w, 0, s, Word(hi, lo));
    assert w.providers[0..] == w.providers;
    assert Bytes(s.lights) ==
           [if s.lights[0] then 1 else 0, if s.lights[1] then 1 else 0, if s.lights[2] then 1 else 0];
  }

  // ----- Controlling -----

  /** Whether a control is carried out: a light there is, or the lock doing as asked. */
  ghost predicate Controlled(w: Wiring, s': Ecu, r: seq<byte>)
    requires |r| >= 4
  {
    || (r[1] == 0xF1 && r[2] == 0x00 && LightingProvider in w.providers && |r| >= 5 && r[3] < 3)
    || (r[1] == 0xF1 && r[2] == 0x01 && DoorProvider in w.providers &&
        s'.door == if r[3] != 0 then Locked else Unlocked)
  }

  lemma ControlMeans(w: Wiring, s: Ecu, r: seq<byte>)
    requires |r| >= 4
    ensures var (s', ok) := Control(w, 0, s, Word(r[1], r[2]), r[3..]);
            (ok <==> Controlled(w, s', r)) && (!ok ==> s' == s)
  {
    hide Control;
    hide Unsafe;
    hide Lamps.Set;
    hide Door.Actuate;
    assert r[3..][0] == r[3];
    ControlRoute(w, 0, s, Word(r[1], r[2]), r[3..]);
    assert w.providers[0..] == w.providers;
    SetAccepts(s.LampPart(), w.lightPins, r[3..]);
    ActuateSucceeds(s.DoorPart(), w.lockPin);
    ControlOneDoor(w, LightingProvider, s, Word(r[1], r[2]), r[3..]);
    ControlOneDoor(w, DoorProvider, s, Word(r[1], r[2]), r[3..]);
  }

  lemma ActuateSucceeds(d: Door, pin: nat)
    ensures d.Actuate(pin, Locked).1 <==> d.Actuate(pin, Locked).0.state == Locked
    ensures d.Actuate(pin, Unlocked).1 <==> d.Actuate(pin, Unlocked).0.state == Unlocked
  {
    hide Unsafe;
  }

  // ----- Trouble codes -----

  /** Four bytes a code: the low 24 bits, high byte first, and the status. */
  ghost predicate Lists(report: seq<byte>, dtcs: seq<Dtc>) {
    && |report| == 4 * |dtcs|
    && forall i :: 0 <= i < |dtcs| ==>
         && report[4 * i] == dtcs[i].code / 0x1_0000 % 0x100
         && report[4 * i + 1] == dtcs[i].code / 0x100 % 0x100
         && report[4 * i + 2] == dtcs[i].code % 0x100
         && report[4 * i + 3] == dtcs[i].status
  }

  lemma {:induction false} ReportLists(dtcs: seq<Dtc>)
    ensures Lists(Report(dtcs), dtcs)
  {
    if dtcs != [] {
      var before := dtcs[..|dtcs| - 1];
      ReportLists(before);
      assert forall i :: 0 <= i < |before| ==> before[i] == dtcs[i];
    }
  }

  // ----- The responses -----

  predicate Refused(out: seq<byte>, service: byte, code: byte) {
    out == [0x7F, service, code]
  }

  /** What the tester is told, `s` before and `s'` after the request. */
  ghost predicate Responded(w: Wiring, s: Ecu, s': Ecu, r: seq<byte>, out: seq<byte>) {
    if r == [] then Refused(out, 0x00, 0x11)
    else if r[0] == 0x10 then
      if |r| >= 2 && (r[1] == 0x01 || r[1] == 0x03) then
        out == [0x50, r[1]] && s'.session == if r[1] == 0x03 then Extended else Default
      else Refused(out, 0x10, 0x12)
    else if r[0] == 0x22 then
      if |r| >= 3 && DataOf(w, s, r[1], r[2]).Some? then out == [0x62, r[1], r[2]] + DataOf(w, s, r[1], r[2]).value
      else Refused(out, 0x22, 0x31)
    else if r[0] == 0x2F then
      if s.session != Extended then Refused(out, 0x2F, 0x22)
      else if |r| >= 4 && Controlled(w, s', r) then out == [0x6F, r[1], r[2]]
      else Refused(out, 0x2F, 0x31) && s' == s
    else if r[0] == 0x19 then
      if |r| >= 2 then |out| >= 2 && out[0] == 0x59 && out[1] == r[1] && Lists(out[2..], s.dtcs)
      else Refused(out, 0x19, 0x12)
    else Refused(out, r[0], 0x11)
  }

  lemma UdsResponds(w: Wiring, s: Ecu, r: seq<byte>)
    ensures var (s', out) := Uds(w, s, r); Responded(w, s, s', r, out)
  {
    hide Control;
    hide ReadData;
    hide DataOf;
    hide Controlled;
    hide Lists;
    if |r| >= 3 {
      ReadIsData(w, s, r[1], r[2]);
    }
    if |r| >= 4 {
      ControlMeans(w, s, r);
    }
    if |r| >= 2 && r[0] == 0x19 {
      ReportLists(s.dtcs);
      assert ([0x59, r[1]] + Report(s.dtcs))[2..] == Report(s.dtcs);
    }
    hide Report;
  }

  /** Every request of every run is answered so. */
  lemma RequestAnswered(w: Wiring, run: seq<Input>, r: seq<byte>)
    ensures var s := After(w, POWERED, run);
            var (s', out) := StepWithOutput(w, s, DiagnosticRequest(r));
            && s' == After(w, POWERED, run + [DiagnosticRequest(r)])
            && out.Diagnostic? && Responded(w, s, s', r, out.bytes)
  {
    hide Responded;
    OneMoreStep(w, POWERED, run, DiagnosticRequest(r));
    hide After;
    UdsResponds(w, After(w, POWERED, run), r);
    hide Uds;
  }

  // ----- The store behind the report -----

  /** What a run has done to the trouble codes. */
  function History(run: seq<Input>): seq<Operation> {
    if run == [] then []
    else
      var before := History(run[..|run| - 1]);
      match run[|run| - 1]
      case StoreDtc(code, status) => before + [Operation.Store(code, status)]
      case ClearDtcs => before + [Clear]
      case _ => before
  }

  lemma RequestDtcs(w: Wiring, s: Ecu, service: uint16, method_: uint16, payload: seq<byte>)
    ensures Request(w, s, service, method_, payload).0.dtcs == s.dtcs
  {
    hide SetMode;
    hide HandlerOf;
    if payload != [] {
      SetModeDoor(w, s, payload[0]);
    }
  }

  lemma StepDtcs(w: Wiring, s: Ecu, i: Input)
    requires !i.StoreDtc? && !i.ClearDtcs?
    ensures Step(w, s, i).dtcs == s.dtcs
  {
    hide SetMode;
    hide Meter.Tick;
    hide Unsafe;
    hide Request;
    hide Control;
    match i {
      case MethodCall(service, method_, payload) => RequestDtcs(w, s, service, method_, payload);
      case DiagnosticRequest(request) =>
        if |request| >= 4 {
          ControlDoor(w, 0, s, Word(request[1], request[2]), request[3..]);
        }
      case CrankTimerFires =>
        if s.crankTimers > 0 {
          SetModeDoor(w, s.(crankTimers := s.crankTimers - 1), RUN);
        }
      case ModeShutdown => SetModeDoor(w, s, OFF);
      case BootUp => SetModeDoor(w, s, ACCESSORY);
      case StartButton(_) =>
        SetModeDoor(w, s, ACCESSORY);
        SetModeDoor(w, s, CRANK);
        SetModeDoor(w, SetMode(w, s, CRANK).0, ACCESSORY);
      case _ =>
    }
  }

  /** Over any run the store is what its stores and clears leave: distinct codes, each with its last status. */
  lemma StoreOfRun(w: Wiring, run: seq<Input>)
    ensures var dtcs := After(w, POWERED, run).dtcs;
            && Codes(dtcs) == FirstOccurrences(History(run))
            && forall i :: 0 <= i < |dtcs| ==> LastStatus(History(run), dtcs[i].code) == Some(dtcs[i].status)
  {
    StoreIsRemaining(w, run);
    StoreHistory(History(run));
    hide After;
    hide History;
  }

  lemma {:induction false} StoreIsRemaining(w: Wiring, run: seq<Input>)
    ensures After(w, POWERED, run).dtcs == Remaining(History(run))
  {
    if run != [] {
      var before, i := run[..|run| - 1], run[|run| - 1];
      StoreIsRemaining(w, before);
      var history := History(before);
      assert forall o: Operation :: (history + [o])[..|history|] == history;
      if !i.StoreDtc? && !i.ClearDtcs? {
        StepDtcs(w, After(w, POWERED, before), i);
        hide Step;
      }
      hide History;
      hide Stored;
    }
  }
}
