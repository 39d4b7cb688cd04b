/** Exactly which fields of the dashboard can be trusted over the SOME/IP wire, field by field. */
module FieldTrust {
  import opened Ports
  import opened VehicleModes
  import opened Boards
  import opened DoorLock
  import opened Lighting
  import opened SpeedSimulator
  import opened BodyEcu
  import opened EcuInvariants
  import opened DoorSafety
  import opened WholeRuns
  import opened DrivingOff
  import opened EventOrder
  import opened CloudGateway
  import opened CompanionApp
  import opened StatePipeline
  import opened DashboardMirror
  import opened MirrorOverWire
  import StaleUpdates
  import SomeIpDeferral
  import Float32

  /** Whether the ECU can be brought to change the field twice in a row. */
  predicate Changeable(w: Wiring, f: Field) {
    match f
    case LockField => true
    case ModeField => true
    case SpeedField => SpeedObserver in w.observers
    case LightField => Reaches(w, LIGHTING, SET_LIGHT_STATE, LIGHTING, SET_LIGHT_STATE)
  }

  /** A run whose last two events are the field's and differ. */
  function ChangeTwice(w: Wiring, f: Field): seq<Input> {
    match f
    case LockField => [DoorButton] + [DoorButton]
    case ModeField => [BootUp] + [StartButton(true)]
    case SpeedField => DriveOff(w)
    case LightField => [StaleUpdates.Switch(true)] + [StaleUpdates.Switch(false)]
  }

  lemma TwoSteps(w: Wiring, a: Input, b: Input)
    ensures After(w, POWERED, [a] + [b]) == Step(w, Step(w, POWERED, a), b)
  {
    hide Step;
    OneMoreStep(w, POWERED, [], a);
    assert [] + [a] == [a];
    assert After(w, POWERED, []) == POWERED;
    OneMoreStep(w, POWERED, [a], b);
  }

  /** Two events at the end, with what they show. */
  lemma Differ(f: Field, before: seq<Message>, a: Message, b: Message, sent: seq<Message>, x: Shown, y: Shown)
    requires sent == before + [a] + [b] && IsEvent(a, ServiceOf(f)) && IsEvent(b, ServiceOf(f)) && x != y
    requires Told(f, a.payload).Some? && ShownOf(f, Told(f, a.payload)) == Some(x)
    requires Told(f, b.payload).Some? && ShownOf(f, Told(f, b.payload)) == Some(y)
    ensures LastTwoDiffer(f, sent)
  {
    hide Told;
    hide ShownOf;
  }

  // ----- The lock -----

  function LockEvent(from: LockState, to: LockState): Message {
    Message(DOOR_LOCK, EVENT, [Code(from), Code(to)])
  }

  lemma LockTwice(w: Wiring)
    ensures LastTwoDiffer(LockField, After(w, POWERED, ChangeTwice(w, LockField)).board.sent)
  {
    var e := Step(w, POWERED, DoorButton);
    assert e.door == Locked && e.board.sent == [LockEvent(Unlocked, Locked)];
    assert e.board.bus == map[DoorIsLocked := BoolValue(true)];
    var sent := Step(w, e, DoorButton).board.sent;
    assert sent == [] + [LockEvent(Unlocked, Locked)] + [LockEvent(Locked, Unlocked)];
    hide Step;
    TwoSteps(w, DoorButton, DoorButton);
    hide After;
    LockTravels(LockEvent(Unlocked, Locked).payload, Locked);
    LockTravels(LockEvent(Locked, Unlocked).payload, Unlocked);
    hide Told;
    hide ShownOf;
    Differ(LockField, [], LockEvent(Unlocked, Locked), LockEvent(Locked, Unlocked), sent,
           LockShown(true), LockShown(false));
  }

  // ----- The mode -----

  lemma QuietOne(w: Wiring, o: Observer, s: Ecu, mode: byte)
    requires mode != OFF && mode != RUN && s.sim.lastSent == 0
    ensures var s' := NotifyOne(w, o, s, mode); s'.board.sent == s.board.sent && s'.sim.lastSent == 0
  {
  }

  /** Changes to other modes than Off and Run raise no further event while the car stands. */
  lemma {:induction false} QuietNotify(w: Wiring, n: nat, s: Ecu, mode: byte)
    requires n <= |w.observers| && mode != OFF && mode != RUN && s.sim.lastSent == 0
    ensures var s' := Notify(w, n, s, mode); s'.board.sent == s.board.sent && s'.sim.lastSent == 0
  {
    hide NotifyOne;
    if n > 0 {
      QuietNotify(w, n - 1, s, mode);
      QuietOne(w, w.observers[n - 1], Notify(w, n - 1, s, mode), mode);
    }
  }

  lemma QuietSetMode(w: Wiring, s: Ecu, mode: byte)
    requires ValidTransition(s.mode, mode) && mode != s.mode && mode != OFF && mode != RUN && s.sim.lastSent == 0
    ensures var s' := SetMode(w, s, mode).0;
            s'.board.sent == s.board.sent + [ModeEvent(mode)] && s'.sim.lastSent == 0
  {
    hide Notify;
    QuietNotify(w, |w.observers|, Announce(s, mode), mode);
  }

  lemma ModeTwice(w: Wiring)
    ensures LastTwoDiffer(ModeField, After(w, POWERED, ChangeTwice(w, ModeField)).board.sent)
  {
    hide SetMode;
    hide Told;
    hide ShownOf;
    TwoSteps(w, BootUp, StartButton(true));
    hide After;
    var e := SetMode(w, POWERED, ACCESSORY).0;
    QuietSetMode(w, POWERED, ACCESSORY);
    SetModeDoor(w, POWERED, ACCESSORY);
    QuietSetMode(w, e, CRANK);
    SetModeDoor(w, e, CRANK);
    ModeTravels([ACCESSORY], ACCESSORY);
    ModeTravels([CRANK], CRANK);
    Differ(ModeField, [], ModeEvent(ACCESSORY), ModeEvent(CRANK), [] + [ModeEvent(ACCESSORY)] + [ModeEvent(CRANK)],
           ModeShown(ACCESSORY), ModeShown(CRANK));
  }

  // ----- The lights -----

  lemma LightTwice(w: Wiring)
    requires Changeable(w, LightField)
    ensures LastTwoDiffer(LightField, After(w, POWERED, ChangeTwice(w, LightField)).board.sent)
  {
    hide Step;
    hide Told;
    hide ShownOf;
    hide Bytes;
    hide HandlerOf;
    TwoSteps(w, StaleUpdates.Switch(true), StaleUpdates.Switch(false));
    hide After;
    StaleUpdates.Switched(w);
    var a, b := Message(LIGHTING, EVENT, Bytes(StaleUpdates.LIT)), Message(LIGHTING, EVENT, Bytes(StaleUpdates.DARK));
    LightsTravel(a.payload, StaleUpdates.LIT);
    LightsTravel(b.payload, StaleUpdates.DARK);
    assert [a] + [b] == [] + [a] + [b];
    Differ(LightField, [], a, b, [] + [a] + [b], LightsShown(1), LightsShown(0));
    hide StaleUpdates.Switch;
  }

  // ----- The speed -----

  lemma ReportedNews(m: Meter, speed: Speed)
    requires m.sim.lastSent != speed
    ensures m.Report(speed).board.sent == m.board.sent + [SpeedEvent(speed)]
  {
    hide SpeedEvent;
  }

  lemma FiveKmh(kmh: real)
    requires 2.5 <= kmh < 7.5
    ensures Quantise(kmh) == 5
  {
    assert 0.5 <= kmh / 5.0 < 1.5;
  }

  /** The first two ticks at full throttle are told in two events. */
  lemma SpeedEvents(m: Meter)
    requires m.sim.mode == RUN && m.sim.smoothed == 0.0 && !m.sim.override.AtLeast(0.0) && m.sim.lastSent == 0
    ensures m.Tick(4095).Tick(4095).board.sent == m.board.sent + [SpeedEvent(5)] + [SpeedEvent(10)]
  {
    hide Quantise;
    hide Meter.Report;
    hide SpeedEvent;
    hide SpeedSignal;
    var first, second := Filter(0.0, 4095), Filter(Filter(0.0, 4095), 4095);
    assert first == 122.85 && second == 242.0145;
    FiveKmh(first / 4095.0 * 200.0);
    TenKmh(second / 4095.0 * 200.0);
    var m0 := m.(sim := m.sim.(smoothed := first));
    ReportedSim(m0, 5);
    ReportedNews(m0, 5);
    var m1 := m.Tick(4095);
    var m2 := m1.(sim := m1.sim.(smoothed := second));
    ReportedSim(m2, 10);
    ReportedNews(m2, 10);
  }

  lemma SpeedTwice(w: Wiring)
    requires Changeable(w, SpeedField)
    ensures LastTwoDiffer(SpeedField, After(w, POWERED, ChangeTwice(w, SpeedField)).board.sent)
  {
    hide Meter.Tick;
    hide Told;
    hide ShownOf;
    hide SpeedEvent;
    var run := Started(w);
    var s := After(w, POWERED, run);
    StartedUnlocked(w);
    StartedMetered(w);
    OneMoreStep(w, POWERED, run, FullThrottle());
    OneMoreStep(w, POWERED, run + [FullThrottle()], FullThrottle());
    hide After;
    hide Started;
    SpeedEvents(s.MeterPart());
    SpeedPayload(5);
    SpeedPayload(10);
    var sent := s.board.sent + [SpeedEvent(5)] + [SpeedEvent(10)];
    Differ(SpeedField, s.board.sent, SpeedEvent(5), SpeedEvent(10), sent,
           SpeedShown(Float32.Finite(5.0)), SpeedShown(Float32.Finite(10.0)));
  }

  lemma StartedMetered(w: Wiring)
    requires SpeedObserver in w.observers
    ensures var sim := After(w, POWERED, Started(w)).sim; sim.mode == RUN && sim.lastSent == 0
  {
    hide After;
    hide Started;
    hide Replay;
    StartedUnlocked(w);
    AlwaysConsistent(w, Started(w));
  }

  lemma SpeedPayload(speed: Speed)
    ensures var e := SpeedEvent(speed);
            && IsEvent(e, ServiceOf(SpeedField)) && Told(SpeedField, e.payload).Some?
            && ShownOf(SpeedField, Told(SpeedField, e.payload)) == Some(SpeedShown(Float32.Finite(speed as real)))
  {
    hide Told;
    hide ShownOf;
    hide Float32.Image;
    hide Float32.Deserialize;
    hide Float32.Serialize;
    Float32.SerializeRoundTrip(Float32.Image(speed), Float32.Serialize(Float32.Image(speed)));
    SpeedTravels(SpeedEvent(speed).payload, speed);
  }

  // ----- All fields -----

  lemma ChangesTwice(w: Wiring, f: Field)
    requires Changeable(w, f)
    ensures LastTwoDiffer(f, After(w, POWERED, ChangeTwice(w, f)).board.sent)
  {
    hide After;
    hide LastTwoDiffer;
    match f {
      case LockField => LockTwice(w);
      case ModeField => ModeTwice(w);
      case SpeedField => SpeedTwice(w);
      case LightField => LightTwice(w);
    }
  }

  /**
   * A field that the ECU can change is mirrored in every run, however its events are carried, iff no publisher is
   * among the threads that raise them.
   */
  lemma TrustedIffNoPublisher(w: Wiring, f: Field, publishers: set<nat>, threads: set<SomeIpDeferral.Thread>)
    requires Changeable(w, f)
    ensures Trusted(w, f, publishers, threads) <==> NoPublisher(publishers, threads)
  {
    hide Trusted;
    hide LastTwoDiffer;
    hide After;
    hide Changeable;
    if NoPublisher(publishers, threads) {
      TrustedIfNone(w, f, publishers, threads);
    } else {
      var id :| id in publishers && SomeIpDeferral.Publisher(id) in threads;
      ChangesTwice(w, f);
      NotTrusted(w, f, publishers, threads, id, ChangeTwice(w, f));
    }
  }
}
