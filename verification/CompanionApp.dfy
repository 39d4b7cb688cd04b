/** The companion app's copy of the vehicle state, kept from the messages it receives. */
module CompanionApp {
  import opened Ports
  import opened CloudSubjects
  import opened CloudGateway
  import opened Float32

  const DEFAULT_VIN := "WVWZZZ3CZWE000001"

  datatype Shown =
    | LockShown(locked: bool)
    | ModeShown(mode: byte)
    | SpeedShown(speed: F32)
    | LightsShown(bits: byte)

  /** Rounded to one digit after the point, ties to the even digit. */
  function Tenth(x: real): real {
    var t := x * 10.0;
    var below := t.Floor;
    var rest := t - below as real;
    (if rest < 0.5 || (rest == 0.5 && below % 2 == 0) then below else below + 1) as real / 10.0
  }

  function Rounded(x: F32): F32 {
    if x.Finite? then Finite(Tenth(x.value)) else x
  }

  lemma WholeTenth(n: int)
    ensures Tenth(n as real) == n as real
  {
    assert (n as real * 10.0).Floor == n * 10;
  }

  /** It is a whole number of tenths, none is nearer, and of two equally near the even one is taken. */
  lemma NearestTenth(x: real)
    ensures var n := (Tenth(x) * 10.0).Floor;
            && Tenth(x) == n as real / 10.0
            && -0.05 <= Tenth(x) - x <= 0.05
            && (Tenth(x) - x == 0.05 || Tenth(x) - x == -0.05 ==> n % 2 == 0)
  {
    var t := x * 10.0;
    var below := t.Floor;
    var rest := t - below as real;
    assert (below as real / 10.0 * 10.0).Floor == below;
    assert ((below + 1) as real / 10.0 * 10.0).Floor == below + 1;
  }

  /** What a message makes the field show; an empty or short message changes nothing. */
  function Decode(f: Field, data: seq<byte>): Option<Shown> {
    if data == [] then None
    else match f
      case LockField => Some(LockShown(data[0] != 0))
      case ModeField => Some(ModeShown(data[0]))
      case LightField => Some(LightsShown(data[0]))
      case SpeedField => if |data| < 4 then None else Some(SpeedShown(Rounded(Value(Deserialize(data)))))
  }

  /** Of a speed the first four bytes count, of the others the first; what follows them does not. */
  lemma FirstBytesCount(f: Field, data: seq<byte>, more: seq<byte>)
    requires |data| >= if f == SpeedField then 4 else 1
    ensures Decode(f, data + more) == Decode(f, data) && Decode(f, data).Some?
  {
    assert forall i :: 0 <= i < |data| ==> (data + more)[i] == data[i];
  }

  function Show(f: Field, data: seq<byte>, shown: Option<Shown>): Option<Shown> {
    var now := Decode(f, data);
    if now.Some? then now else shown
  }

  class VehicleState {
    var vin: string
    var doorLocked: Option<bool>
    var vehicleMode: Option<byte>
    var speed: Option<F32>
    var lightStatus: Option<byte>

    constructor ()
      ensures vin == DEFAULT_VIN && forall f :: Reading(f) == None
    {
      vin, doorLocked, vehicleMode, speed, lightStatus := DEFAULT_VIN, None, None, None, None;
    }

    function Reading(f: Field): Option<Shown>
      reads this
    {
      match f
      case LockField => if doorLocked.None? then None else Some(LockShown(doorLocked.value))
      case ModeField => if vehicleMode.None? then None else Some(ModeShown(vehicleMode.value))
      case SpeedField => if speed.None? then None else Some(SpeedShown(speed.value))
      case LightField => if lightStatus.None? then None else Some(LightsShown(lightStatus.value))
    }

    method OnLockState(subject: string, data: seq<byte>)
      modifies this
      ensures vin == LearnVin(subject, old(vin))
      ensures forall f :: Reading(f) == if f == LockField then Show(f, data, old(Reading(f))) else old(Reading(f))
    {
      vin := LearnVin(subject, vin);
      if data != [] {
        doorLocked := Some(data[0] != 0);
      }
    }

    method OnVehicleMode(subject: string, data: seq<byte>)
      modifies this
      ensures vin == LearnVin(subject, old(vin))
      ensures forall f :: Reading(f) == if f == ModeField then Show(f, data, old(Reading(f))) else old(Reading(f))
    {
      vin := LearnVin(subject, vin);
      if data != [] {
        vehicleMode := Some(data[0]);
      }
    }

    method OnVehicleSpeed(subject: string, data: seq<byte>)
      modifies this
      ensures vin == LearnVin(subject, old(vin))
      ensures forall f :: Reading(f) == if f == SpeedField then Show(f, data, old(Reading(f))) else old(Reading(f))
    {
      vin := LearnVin(subject, vin);
      if |data| >= 4 {
        speed := Some(Rounded(Value(Deserialize(data))));
      }
    }

    method OnLightStatus(subject: string, data: seq<byte>)
      modifies this
      ensures vin == LearnVin(subject, old(vin))
      ensures forall f :: Reading(f) == if f == LightField then Show(f, data, old(Reading(f))) else old(Reading(f))
    {
      vin := LearnVin(subject, vin);
      if data != [] {
        lightStatus := Some(data[0]);
      }
    }
  }
}
