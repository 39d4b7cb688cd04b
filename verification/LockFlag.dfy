/** Two accounts of the lock: the flag on the dashboard and the signal on the ECU's own bus. */
module LockFlag {
  import opened Ports
  import opened Boards
  import opened DoorLock
  import opened BodyEcu
  import opened EcuInvariants
  import opened EventTraces
  import opened CloudGateway
  import opened CompanionApp
  import opened StatePipeline
  import opened DashboardMirror
  import Float32

  /** The ECU's own bus carries the lock signal iff there has been a door event; it says locked iff the door is. */
  lemma LocalSignal(w: Wiring, e: Ecu)
    requires Consistent(w, e)
    ensures DoorIsLocked in e.board.bus <==> Payloads(e.board.sent, DOOR_LOCK) != []
    ensures DoorIsLocked in e.board.bus ==> e.board.bus[DoorIsLocked] == BoolValue(e.door == Locked)
  {
    hide Payloads;
    hide Replay;
    hide Float32.Image;
    hide Driven;
    ReplayMeans(e.board.sent);
  }

  /** What the dashboard is heading for and what the bus says, where there has been a door event. */
  predicate Agree(s: Pipeline)
    requires s.taken <= |s.ecu.board.sent|
  {
    && Heading(LockField, s).Some? && DoorIsLocked in s.ecu.board.bus
    && Heading(LockField, s) == match s.ecu.board.bus[DoorIsLocked]
                                case BoolValue(flag) => Some(LockShown(flag))
                                case _ => None
  }

  lemma FlagAndBus(w: Wiring, s: Pipeline)
    requires Lossless(w, s)
    ensures s.taken <= |s.ecu.board.sent|
    ensures Heading(LockField, s).Some? <==> DoorIsLocked in s.ecu.board.bus
    ensures Heading(LockField, s).Some? ==> (Agree(s) <==> s.ecu.door != Error)
  {
    hide Heading;
    hide Payloads;
    hide Consistent;
    LosslessMirrors(w, s);
    LocalSignal(w, s.ecu);
    hide Lossless;
  }

  /** In every undisturbed run the dashboard is heading for what the ECU's own bus says iff the door has not failed. */
  lemma FlagAgreesIffSound(w: Wiring, vin: string, actions: seq<Action>)
    requires Undisturbed(w, vin, actions)
    ensures var s := Run(w, Idle(vin), actions);
            && s.taken <= |s.ecu.board.sent|
            && (Heading(LockField, s).Some? <==> DoorIsLocked in s.ecu.board.bus)
            && (Heading(LockField, s).Some? ==> (Agree(s) <==> s.ecu.door != Error))
  {
    hide Run;
    hide Lossless;
    hide Heading;
    hide Agree;
    AlwaysLossless(w, vin, actions);
    FlagAndBus(w, Run(w, Idle(vin), actions));
  }

  /** A fault of the door is such a case: the dashboard is heading for locked, the bus says not locked. */
  lemma FaultShowsLocked(w: Wiring, vin: string)
    ensures var s := Run(w, Idle(vin), [EcuStep(DoorFault)]);
            && s.ecu.door == Error && s.taken <= |s.ecu.board.sent|
            && Heading(LockField, s) == Some(LockShown(true))
            && s.ecu.board.bus == map[DoorIsLocked := BoolValue(false)]
  {
    assert [EcuStep(DoorFault)][..0] == [];
    assert Run(w, Idle(vin), []) == Idle(vin);
    var s := Run(w, Idle(vin), [EcuStep(DoorFault)]);
    IdleLossless(w, vin);
    EcuKeeps(w, Idle(vin), DoorFault);
    assert s.ecu == Step(w, POWERED, DoorFault);
    hide Run;
    LosslessMirrors(w, s);
    LocalSignal(w, s.ecu);
    hide Heading;
    hide Payloads;
    hide Lossless;
    hide Consistent;
  }
}
