/** The door lock controller: a lock state, guarded by speed and door position. */
module DoorLock {
  import opened Ports
  import opened VehicleModes
  import opened Boards
  import Float32

  datatype LockState = Unlocked | Locked | Error

  function Code(state: LockState): byte {
    match state
    case Unlocked => 0
    case Locked => 1
    case Error => 2
  }

  const LOCK: uint16 := 0x0001
  const UNLOCK: uint16 := 0x0002
  const GET_STATUS: uint16 := 0x0003
  const DOOR_DID: uint16 := 0xF101

  /** No locking or unlocking above 5 km/h or with the door open. A signal absent or of another type is ignored. */
  predicate Unsafe(bus: Store) {
    || (VehicleSpeed in bus && bus[VehicleSpeed].FloatValue? && Float32.Value(bus[VehicleSpeed].image).Above(5.0))
    || DoorOpen(bus)
  }

  predicate DoorOpen(bus: Store) {
    DoorIsOpen in bus && bus[DoorIsOpen] == BoolValue(true)
  }

  /** A lock state together with the board it acts on. */
  datatype Door = Door(state: LockState, board: Board) {
    function Changed(old_: LockState): Door {
      this.(board := board.Send(Message(DOOR_LOCK, EVENT, [Code(old_), Code(state)]))
                          .Put(DoorIsLocked, BoolValue(state == Locked)))
    }

    /** Asks for Locked or Unlocked; the flag is the success code. */
    function Actuate(pin: nat, target: LockState): (Door, bool)
      requires target != Error
    {
      if state == Error then (this, false)
      else if state == target then (this, true)
      else if Unsafe(board.bus) then (this, false)
      else (Door(target, board.Drive(pin, target == Locked)).Changed(state), true)
    }

    function Fail(): Door {
      Door(Error, board).Changed(state)
    }

    function OnModeChanged(pin: nat, mode: byte): Door {
      if mode == RUN then Actuate(pin, Locked).0 else this
    }

    function OnButton(pin: nat): Door {
      match state
      case Locked => Actuate(pin, Unlocked).0
      case Unlocked => Actuate(pin, Locked).0
      case Error => this
    }

    /** A command signal of another type than bool is ignored, without a response. */
    function OnCommand(pin: nat, value: SignalValue): Door {
      if !value.BoolValue? then this
      else
        var (d, ok) := Actuate(pin, if value.flag then Locked else Unlocked);
        d.(board := d.board.Put(DoorResponse, IntValue(if ok then 0 else 1)))
    }

    function IoControl(pin: nat, did: uint16, param: seq<byte>): (Door, bool) {
      if did != DOOR_DID || param == [] then (this, false)
      else Actuate(pin, if param[0] != 0 then Locked else Unlocked)
    }
  }

  class DoorLockController {
    const bus: SignalBus
    const gpio: GpioPort
    const someip: EventSender
    const pin: nat
    var state: LockState

    constructor (bus: SignalBus, gpio: GpioPort, someip: EventSender, pin: nat)
      ensures this.bus == bus && this.gpio == gpio && this.someip == someip && this.pin == pin
      ensures state == Unlocked
    {
      this.bus, this.gpio, this.someip, this.pin := bus, gpio, someip, pin;
      state := Unlocked;
    }

    function View(): Door
      reads this, bus, gpio, someip
    {
      Door(state, Snapshot(bus, gpio, someip))
    }

    /** Nobody listens to what this controller publishes, so a publish calls no one back. */
    predicate Unheard()
      reads this, bus`subscribers
    {
      DoorIsLocked !in bus.subscribers && DoorResponse !in bus.subscribers
    }

    function SafetyHolds(): (safe: bool)
      reads this, bus
      ensures safe == !Unsafe(bus.store)
    {
      var speed := bus.Get(VehicleSpeed);
      if speed.Some? && speed.value.FloatValue? && Float32.Value(speed.value.image).Above(5.0) then
        false
      else
        var open := bus.Get(DoorIsOpen);
        !(open.Some? && open.value.BoolValue? && open.value.flag)
    }

    method PublishStateChanged(previous: LockState)
      requires Unheard()
      modifies bus`store, someip
      ensures View() == old(View()).Changed(previous)
    {
      someip.SendEvent(DOOR_LOCK, EVENT, [Code(previous), Code(state)]);
      var callbacks := bus.Publish(DoorIsLocked, BoolValue(state == Locked));
      assert callbacks == [];
    }

    method Lock() returns (ok: bool)
      requires Unheard()
      modifies this`state, bus`store, gpio, someip
      ensures (View(), ok) == old(View()).Actuate(pin, Locked)
    {
      if state == Error {
        return false;
      }
      if state == Locked {
        return true;
      }
      if !SafetyHolds() {
        return false;
      }
      var previous := state;
      state := Locked;
      gpio.Write(pin, true);
      PublishStateChanged(previous);
      return true;
    }

    method Unlock() returns (ok: bool)
      requires Unheard()
      modifies this`state, bus`store, gpio, someip
      ensures (View(), ok) == old(View()).Actuate(pin, Unlocked)
    {
      if state == Error {
        return false;
      }
      if state == Unlocked {
        return true;
      }
      if !SafetyHolds() {
        return false;
      }
      var previous := state;
      state := Unlocked;
      gpio.Write(pin, false);
      PublishStateChanged(previous);
      return true;
    }

    method SetError()
      requires Unheard()
      modifies this`state, bus`store, someip
      ensures View() == old(View()).Fail()
    {
      var previous := state;
      state := Error;
      PublishStateChanged(previous);
    }

    method OnModeChanged(mode: byte)
      requires Unheard()
      modifies this`state, bus`store, gpio, someip
      ensures View() == old(View()).OnModeChanged(pin, mode)
    {
      if mode == RUN {
        var _ := Lock();
      }
    }

    method OnButtonPress()
      requires Unheard()
      modifies this`state, bus`store, gpio, someip
      ensures View() == old(View()).OnButton(pin)
    {
      if state == Locked {
        var _ := Unlock();
      } else if state == Unlocked {
        var _ := Lock();
      }
    }

    method OnCommandSignal(value: SignalValue)
      requires Unheard()
      modifies this`state, bus`store, gpio, someip
      ensures View() == old(View()).OnCommand(pin, value)
    {
      if !value.BoolValue? {
        return;
      }
      var ok: bool;
      if value.flag {
        ok := Lock();
      } else {
        ok := Unlock();
      }
      var callbacks := bus.Publish(DoorResponse, IntValue(if ok then 0 else 1));
      assert callbacks == [];
    }

    method IoControl(did: uint16, param: seq<byte>) returns (ok: bool)
      requires Unheard()
      modifies this`state, bus`store, gpio, someip
      ensures (View(), ok) == old(View()).IoControl(pin, did, param)
    {
      if did != DOOR_DID || param == [] {
        return false;
      }
      if param[0] != 0 {
        ok := Lock();
      } else {
        ok := Unlock();
      }
    }
  }
}
