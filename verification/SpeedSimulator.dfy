/** The speed simulator: an accelerator reading, filtered, scaled and rounded to 5 km/h. */
module SpeedSimulator {
  import opened Ports
  import opened VehicleModes
  import opened Boards
  import opened Float32

  const GET_SPEED: uint16 := 0x0001
  const SET_SPEED: uint16 := 0x0002
  const MAX_SPEED := 200
  const ADC_MAX := 4095
  const DEAD_ZONE := 200
  const STEP := 5

  type Speed = n: nat | n <= MAX_SPEED
  type Reading = n: nat | n <= ADC_MAX

  /** To the nearest whole number, halves away from zero. */
  function Round(x: real): int {
    if x >= 0.0 then (x + 0.5).Floor else -(-x + 0.5).Floor
  }

  /** To the nearest multiple of 5 km/h within 0..200. */
  function Quantise(kmh: real): (speed: Speed)
    ensures speed % STEP == 0
  {
    var steps := Round(kmh / 5.0);
    if steps < 0 then 0 else if steps > 40 then MAX_SPEED else steps * STEP
  }

  function DeadZoned(raw: nat): Reading {
    if raw < DEAD_ZONE then 0 else if raw > ADC_MAX - DEAD_ZONE then ADC_MAX else raw
  }

  function Filter(smoothed: real, reading: Reading): real {
    smoothed + 0.03 * (reading as real - smoothed)
  }

  function FilteredSpeed(smoothed: real): Speed {
    Quantise(smoothed / 4095.0 * 200.0)
  }

  /** Clamps a set speed into 0..200; a negative one clears the override, NaN is kept and never applies. */
  function ClampOverride(value: F32): F32 {
    if value.Below(0.0) then Finite(-1.0)
    else if value.Above(200.0) then Finite(200.0)
    else value
  }

  datatype Sim = Sim(mode: byte, speed: Speed, lastSent: Speed, smoothed: real, override: F32)

  const AT_REST := Sim(OFF, 0, 0, 0.0, Finite(-1.0))

  function SpeedEvent(speed: Speed): Message {
    Message(SPEED_SENSOR, EVENT, Serialize(Image(speed)))
  }

  function SpeedSignal(speed: Speed): SignalValue {
    FloatValue(Image(speed))
  }

  datatype Meter = Meter(sim: Sim, board: Board) {
    /** Takes over a speed, raising an event only if it differs from the last one sent. */
    function Report(speed: Speed): Meter {
      if speed == sim.lastSent then
        Meter(sim.(speed := speed), board)
      else
        Meter(sim.(speed := speed, lastSent := speed), board.Send(SpeedEvent(speed)))
    }

    function Show(): Meter {
      this.(board := board.Put(VehicleSpeed, SpeedSignal(sim.speed)))
    }

    function OnModeChanged(mode: byte): Meter {
      var m := this.(sim := sim.(mode := mode));
      if mode == RUN then m else m.Report(0).Show()
    }

    /** One timer tick; `raw` is what the converter returns, negative for a failed read. */
    function Tick(raw: int): Meter {
      if sim.mode != RUN then
        if sim.speed == 0 then Show()
        else Meter(sim.(speed := 0, lastSent := 0), board.Send(SpeedEvent(0))).Show()
      else if sim.override.AtLeast(0.0) then
        Report(if sim.override.Finite? then Quantise(sim.override.value) else MAX_SPEED).Show()
      else if raw < 0 then
        this
      else
        var smoothed := Filter(sim.smoothed, DeadZoned(raw));
        this.(sim := sim.(smoothed := smoothed)).Report(FilteredSpeed(smoothed)).Show()
    }

    function SetSpeed(payload: seq<byte>): (Meter, byte) {
      if |payload| < 4 then (this, 1)
      else (this.(sim := sim.(override := ClampOverride(Value(Deserialize(payload))))), 0)
    }
  }

  class Simulator {
    const bus: SignalBus
    const someip: EventSender
    ghost const gpio: GpioPort
    var mode: byte
    var currentSpeed: Speed
    var lastSentSpeed: Speed
    var smoothedAdc: real
    var speedOverride: F32

    constructor (bus: SignalBus, ghost gpio: GpioPort, someip: EventSender)
      ensures this.bus == bus && this.gpio == gpio && this.someip == someip
      ensures Sim(mode, currentSpeed, lastSentSpeed, smoothedAdc, speedOverride) == AT_REST
    {
      this.bus, this.gpio, this.someip := bus, gpio, someip;
      mode, currentSpeed, lastSentSpeed, smoothedAdc, speedOverride := OFF, 0, 0, 0.0, Finite(-1.0);
    }

    ghost function View(): Meter
      reads this, bus, gpio, someip
    {
      Meter(Sim(mode, currentSpeed, lastSentSpeed, smoothedAdc, speedOverride), Snapshot(bus, gpio, someip))
    }

    predicate Unheard()
      reads this, bus`subscribers
    {
      VehicleSpeed !in bus.subscribers
    }

    method SendIfChanged()
      modifies this`lastSentSpeed, someip
      ensures View() == old(View()).Report(old(currentSpeed))
    {
      if currentSpeed != lastSentSpeed {
        someip.SendEvent(SPEED_SENSOR, EVENT, Serialize(Image(currentSpeed)));
        lastSentSpeed := currentSpeed;
      }
    }

    method PublishSpeed()
      requires Unheard()
      modifies bus`store
      ensures View() == old(View()).Show()
    {
      var callbacks := bus.Publish(VehicleSpeed, FloatValue(Image(currentSpeed)));
      assert callbacks == [];
    }

    method ReportSpeed(speed: Speed)
      requires Unheard()
      modifies this`currentSpeed, this`lastSentSpeed, bus`store, someip
      ensures View() == old(View()).Report(speed).Show()
    {
      currentSpeed := speed;
      SendIfChanged();
      PublishSpeed();
    }

    method OnModeChanged(newMode: byte)
      requires Unheard()
      modifies this, bus`store, someip
      ensures View() == old(View()).OnModeChanged(newMode)
    {
      mode := newMode;
      if newMode != RUN {
        ReportSpeed(0);
      }
    }

    method OnTimerTick(raw: int)
      requires Unheard()
      modifies this, bus`store, someip
      ensures View() == old(View()).Tick(raw)
    {
      if mode != RUN {
        if currentSpeed != 0 {
          currentSpeed := 0;
          someip.SendEvent(SPEED_SENSOR, EVENT, Serialize(Image(0)));
          lastSentSpeed := 0;
        }
        PublishSpeed();
        return;
      }
      if speedOverride.AtLeast(0.0) {
        ReportSpeed(if speedOverride.Finite? then Quantise(speedOverride.value) else MAX_SPEED);
        return;
      }
      if raw < 0 {
        return;
      }
      var clamped := DeadZoned(raw);
      smoothedAdc := smoothedAdc + 0.03 * (clamped as real - smoothedAdc);
      ReportSpeed(FilteredSpeed(smoothedAdc));
    }

    method HandleSetSpeed(payload: seq<byte>) returns (code: byte)
      modifies this`speedOverride
      ensures (View(), code) == old(View()).SetSpeed(payload)
    {
      if |payload| < 4 {
        return 1;
      }
      var value := Value(Deserialize(payload));
      if value.Below(0.0) {
        speedOverride := Finite(-1.0);
      } else {
        speedOverride := if value.Above(200.0) then Finite(200.0) else value;
      }
      return 0;
    }
  }
}
