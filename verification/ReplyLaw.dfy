/** What callers are told: every answer to a method call or a command signal, in bytes and in what it means. */
module ReplyLaw {
  import opened Ports
  import opened DoorLock
  import opened SpeedSimulator
  import opened BodyEcu
  import opened EcuInvariants
  import opened DoorSafety
  import opened WholeRuns
  import Float32

  /** Type 0x80 with return code 0 or 1. */
  predicate Told(out: Output, ok: bool, payload: seq<byte>) {
    out == Response(0x80, if ok then 0 else 1, payload)
  }

  /** What the caller of a controller's own method is told, `s` before and `s'` after the call. */
  ghost predicate Answered(s: Ecu, s': Ecu, service: uint16, method_: uint16, payload: seq<byte>, out: Output) {
    if service == 0x1000 && method_ == 1 then
      Told(out, |payload| >= 2 && payload[0] < 3, payload)
    else if service == 0x1000 && method_ == 2 then
      out.Response? && Told(out, true, out.payload) && |out.payload| == 3
      && forall i :: 0 <= i < 3 ==> out.payload[i] == if s.lights[i] then 1 else 0
    else if service == 0x1001 && (method_ == 1 || method_ == 2) then
      Told(out, s'.door == if method_ == 1 then Locked else Unlocked, payload)
    else if service == 0x1001 && method_ == 3 then
      Told(out, true, [match s.door case Unlocked => 0 case Locked => 1 case Error => 2])
    else if service == 0x1002 && method_ == 1 then
      Told(out, true, [s.mode])
    else if service == 0x1002 && method_ == 2 then
      Told(out, payload != [] && s'.mode == payload[0], payload)
    else if service == 0x1003 && method_ == 1 then
      && out.Response? && Told(out, true, out.payload) && |out.payload| == 4
      && Float32.Value(Float32.Deserialize(out.payload)) == Float32.Finite(s.sim.speed as real)
    else if service == 0x1003 && method_ == 2 then
      Told(out, |payload| >= 4, payload)
    else
      out == Response(0x81, 0x05, payload) && s' == s
  }

  lemma LightingAnswered(w: Wiring, s: Ecu, method_: uint16, payload: seq<byte>)
    ensures var (s', out) := LightingRequest(w, s, method_, payload);
            Answered(s, s', 0x1000, method_, payload, out)
  {
    hide Float32.Value;
    hide Float32.Deserialize;
  }

  lemma DoorAnswered(w: Wiring, s: Ecu, method_: uint16, payload: seq<byte>)
    ensures var (s', out) := DoorRequest(w, s, method_, payload);
            Answered(s, s', 0x1001, method_, payload, out)
  {
    hide Float32.Value;
    hide Float32.Deserialize;
    hide Unsafe;
  }

  lemma ModeAnswered(w: Wiring, s: Ecu, method_: uint16, payload: seq<byte>)
    ensures var (s', out) := ModeRequest(w, s, method_, payload);
            Answered(s, s', 0x1002, method_, payload, out)
  {
    hide Float32.Value;
    hide Float32.Deserialize;
    hide SetMode;
    if payload != [] {
      SetModeDoor(w, s, payload[0]);
    }
  }

  lemma SpeedAnswered(w: Wiring, s: Ecu, method_: uint16, payload: seq<byte>)
    ensures var (s', out) := SpeedRequest(w, s, method_, payload);
            Answered(s, s', 0x1003, method_, payload, out)
  {
    var image := Float32.Image(s.sim.speed);
    Float32.ImageRoundTrip(s.sim.speed);
    Float32.SerializeRoundTrip(image, Float32.Serialize(image));
    hide Float32.Value;
    hide Float32.Image;
    hide Float32.Serialize;
    hide Float32.Deserialize;
    hide Meter.SetSpeed;
    SetSpeedCode(s.MeterPart(), payload);
  }

  lemma SetSpeedCode(m: Meter, payload: seq<byte>)
    ensures m.SetSpeed(payload).1 == if |payload| >= 4 then 0 else 1
  {
  }

  /** Every call is answered: by the owner's rule, for the CAN gateway at once, else with an error. */
  lemma CallAnswered(w: Wiring, run: seq<Input>, service: uint16, method_: uint16, payload: seq<byte>)
    ensures var s := After(w, POWERED, run);
            var (s', out) := StepWithOutput(w, s, MethodCall(service, method_, payload));
            && s' == After(w, POWERED, run + [MethodCall(service, method_, payload)])
            && match HandlerOf(w.methods, service, method_)
               case Some(Own(own, ownMethod)) => Answered(s, s', own, ownMethod, payload, out)
               case Some(ToCan) => s' == s && Told(out, true, payload)
               case None => s' == s && out == Response(0x81, 0x05, payload)
  {
    hide HandlerOf;
    hide Answered;
    OneMoreStep(w, POWERED, run, MethodCall(service, method_, payload));
    hide After;
    match HandlerOf(w.methods, service, method_) {
      case Some(Own(own, ownMethod)) => HandleAnswered(w, After(w, POWERED, run), own, ownMethod, payload);
      case _ =>
    }
    hide Handle;
  }

  lemma HandleAnswered(w: Wiring, s: Ecu, service: uint16, method_: uint16, payload: seq<byte>)
    ensures var (s', out) := Handle(w, s, service, method_, payload);
            Answered(s, s', service, method_, payload, out)
  {
    hide LightingRequest;
    hide DoorRequest;
    hide ModeRequest;
    hide SpeedRequest;
    if service == 0x1000 {
      LightingAnswered(w, s, method_, payload);
    } else if service == 0x1001 {
      DoorAnswered(w, s, method_, payload);
    } else if service == 0x1002 {
      ModeAnswered(w, s, method_, payload);
    } else if service == 0x1003 {
      SpeedAnswered(w, s, method_, payload);
    }
  }

  /** A bool on the command signal is answered on the bus: 0 iff the lock is then as asked. Other values are not. */
  lemma CommandAnswered(w: Wiring, run: seq<Input>, value: SignalValue)
    ensures var s, s' := After(w, POWERED, run), After(w, POWERED, run + [DoorCommandSignal(value)]);
            if value.BoolValue? then
              && DoorResponse in s'.board.bus
              && s'.board.bus[DoorResponse] ==
                 IntValue(if s'.door == (if value.flag then Locked else Unlocked) then 0 else 1)
            else
              Same(s.board.bus, s'.board.bus, DoorResponse) && s'.door == s.door
  {
    hide Unsafe;
    OneMoreStep(w, POWERED, run, DoorCommandSignal(value));
    hide After;
    CommandStep(w, After(w, POWERED, run), value);
    hide Step;
  }
}
