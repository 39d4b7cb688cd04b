/** Undisturbed, the dashboard always heads for the state of the ECU; what disturbs it is said exactly. */
module DashboardMirror {
  import opened Ports
  import opened Boards
  import opened DoorLock
  import opened Lighting
  import opened BodyEcu
  import opened EcuInvariants
  import opened EventTraces
  import opened EventGrowth
  import opened NatsSubjects
  import opened CloudSubjects
  import opened KuksaBridge
  import opened CloudGateway
  import opened CompanionApp
  import opened Float32
  import opened StatePipeline

  // ----- From events to values -----

  lemma {:induction false} PayloadsConcat(a: seq<Message>, b: seq<Message>, service: uint16)
    ensures Payloads(a + b, service) == Payloads(a, service) + Payloads(b, service)
  {
    if b == [] {
      assert a + b == a;
    } else {
      var before := b[..|b| - 1];
      PayloadsConcat(a, before, service);
      assert (a + b)[..|a + b| - 1] == a + before;
    }
  }

  lemma {:induction false} ToldConcat(f: Field, p: seq<seq<byte>>, q: seq<seq<byte>>)
    ensures ToldAll(f, p + q) == ToldAll(f, p) + ToldAll(f, q)
  {
    hide Told;
    if q == [] {
      assert p + q == p;
    } else {
      var before := q[..|q| - 1];
      ToldConcat(f, p, before);
      assert (p + q)[..|p + q| - 1] == p + before;
    }
  }

  function LastOf<T>(s: seq<T>): Option<T> {
    if s == [] then None else Some(s[|s| - 1])
  }

  lemma {:induction false} ToldTyped(f: Field, p: seq<seq<byte>>)
    ensures forall v :: v in ToldAll(f, p) ==> Typed(f, v)
  {
    hide Deserialize;
    hide Signed;
    if p != [] {
      ToldTyped(f, p[..|p| - 1]);
    }
  }

  lemma LastTold(f: Field, p: seq<seq<byte>>)
    requires p != [] && Told(f, p[|p| - 1]).Some?
    ensures LastOf(ToldAll(f, p)) == Told(f, p[|p| - 1])
  {
  }

  lemma LockTravels(p: seq<byte>, state: LockState)
    requires |p| == 2 && p[1] == Code(state)
    ensures Told(LockField, p).Some? && ShownOf(LockField, Told(LockField, p)) == Some(LockShown(state != Unlocked))
  {
  }

  lemma ModeTravels(p: seq<byte>, mode: byte)
    requires p == [mode]
    ensures Told(ModeField, p).Some? && ShownOf(ModeField, Told(ModeField, p)) == Some(ModeShown(mode))
  {
    assert p[..0] == [];
    assert BigEndian([]) == 0;
    assert BigEndian(p) == mode;
  }

  lemma SpeedTravels(p: seq<byte>, speed: nat)
    requires speed < 0x100_0000 && |p| == 4 && Deserialize(p) == Image(speed)
    ensures Told(SpeedField, p).Some?
    ensures ShownOf(SpeedField, Told(SpeedField, p)) == Some(SpeedShown(Finite(speed as real)))
  {
    SerializeRoundTrip(Deserialize(p), p);
    ImageRoundTrip(speed);
    WholeTenth(speed);
    hide Value;
    hide Image;
    hide Deserialize;
    hide Serialize;
    hide Tenth;
  }

  lemma LightsTravel(p: seq<byte>, on: Lights)
    requires p == Bytes(on)
    ensures Told(LightField, p).Some?
    ensures ShownOf(LightField, Told(LightField, p)) ==
            Some(LightsShown((if on[0] then 1 else 0) + (if on[1] then 2 else 0) + (if on[2] then 4 else 0)))
  {
    assert p[1..][1..] == [p[2]] && p[1..][1..][1..] == [];
    assert Mask([]) == 0;
    assert Mask([p[2]]) == p[2];
    assert Mask(p) == p[0] + 2 * (p[1] + 2 * p[2]);
  }

  /** The last event of each field shows the controller's state when it has come through. */
  lemma LastEventTells(w: Wiring, e: Ecu, f: Field)
    requires Consistent(w, e)
    ensures ShownOf(f, LastOf(ToldAll(f, Payloads(e.board.sent, ServiceOf(f))))) == Expected(f, e)
  {
    hide Consistent;
    hide Payloads;
    hide ShownOf;
    hide Told;
    hide Truth;
    var p := Payloads(e.board.sent, ServiceOf(f));
    if p == [] {
      assert ToldAll(f, p) == [];
      NothingShown(f);
    } else {
      LastPayload(w, e, f);
      PayloadTravels(e, f, p[|p| - 1]);
      hide ToldAll;
      LastTold(f, p);
    }
  }

  /** The payload that tells the controller's present state. */
  predicate TellsState(f: Field, e: Ecu, p: seq<byte>) {
    match f
    case LockField => |p| == 2 && p[1] == Code(e.door)
    case ModeField => p == [e.mode]
    case SpeedField => |p| == 4 && Deserialize(p) == Image(e.sim.speed)
    case LightField => p == Bytes(e.lights)
  }

  /** How long the payloads of a history are. */
  lemma Lengths(d: seq<seq<byte>>)
    requires d != []
    ensures DoorChain(d) ==> |d[|d| - 1]| == 2
    ensures ModePath(d) ==> |d[|d| - 1]| == 1
    ensures SpeedsDiffer(d) ==> |d[|d| - 1]| == 4
  {
  }

  lemma LastPayload(w: Wiring, e: Ecu, f: Field)
    requires Consistent(w, e) && Payloads(e.board.sent, ServiceOf(f)) != []
    ensures var p := Payloads(e.board.sent, ServiceOf(f)); TellsState(f, e, p[|p| - 1])
  {
    hide DoorChain;
    hide ModePath;
    hide SpeedsDiffer;
    hide LightsDiffer;
    hide Replay;
    hide Image;
    hide Deserialize;
    hide Payloads;
    hide PinsAgree;
    hide ModesAgree;
    hide LockSignalled;
    hide Bytes;
    hide Code;
    ReplayMeans(e.board.sent);
    Lengths(Payloads(e.board.sent, ServiceOf(f)));
  }

  lemma PayloadTravels(e: Ecu, f: Field, p: seq<byte>)
    requires TellsState(f, e, p)
    ensures Told(f, p).Some? && ShownOf(f, Told(f, p)) == Some(Truth(f, e))
  {
    hide Image;
    hide Deserialize;
    hide ShownOf;
    hide Told;
    match f {
      case LockField => LockTravels(p, e.door);
      case ModeField => ModeTravels(p, e.mode);
      case SpeedField => SpeedTravels(p, e.sim.speed);
      case LightField => LightsTravel(p, e.lights);
    }
  }

  lemma NothingShown(f: Field)
    ensures ShownOf(f, None) == None
  {
  }

  // ----- The invariant -----

  /** The newest value of a lane is the one the broker stores, which is the one last told. */
  ghost predicate LaneOk(f: Field, lane: Lane, told: seq<Message>) {
    && lane.stored == LastOf(ToldAll(f, Payloads(told, ServiceOf(f))))
    && (forall v :: v in lane.signals ==> Typed(f, v))
    && (if lane.signals == [] then AfterMails(f, lane.mails, lane.shown) == ShownOf(f, lane.stored)
        else lane.stored == LastOf(lane.signals))
  }

  /** A value fetched under the mutex is still the newest unless a newer one is waiting to be delivered. */
  ghost predicate FetchedOk(s: Pipeline) {
    && (forall t :: t in s.fetched ==> Typed(s.fetched[t].field, s.fetched[t].value))
    && (StreamThread in s.fetched ==>
          && s.locked
          && var lane := s.lanes.Of(s.fetched[StreamThread].field);
          lane.signals == [] ==> lane.stored == Some(s.fetched[StreamThread].value))
  }

  /** Nothing of what the ECU has sent is lost on the way, or overtaken for good. */
  ghost predicate Flows(s: Pipeline) {
    && s.taken <= |s.ecu.board.sent|
    && (forall f :: LaneOk(f, s.lanes.Of(f), s.ecu.board.sent[..s.taken]))
    && FetchedOk(s)
  }

  ghost predicate Lossless(w: Wiring, s: Pipeline) {
    Consistent(w, s.ecu) && Flows(s)
  }

  lemma ToldSplit(f: Field, sent: seq<Message>, n: nat)
    requires n <= |sent|
    ensures ToldAll(f, Payloads(sent, ServiceOf(f))) ==
            ToldAll(f, Payloads(sent[..n], ServiceOf(f))) + ToldAll(f, Payloads(sent[n..], ServiceOf(f)))
  {
    hide ToldAll;
    hide Payloads;
    assert sent == sent[..n] + sent[n..];
    PayloadsConcat(sent[..n], sent[n..], ServiceOf(f));
    ToldConcat(f, Payloads(sent[..n], ServiceOf(f)), Payloads(sent[n..], ServiceOf(f)));
  }

  lemma NewestShown(f: Field, lane: Lane, gone: seq<SignalValue>, coming: seq<SignalValue>)
    requires lane.stored == LastOf(gone)
    requires forall v :: v in lane.signals || v in coming ==> Typed(f, v)
    requires if lane.signals == [] then AfterMails(f, lane.mails, lane.shown) == ShownOf(f, lane.stored)
             else lane.stored == LastOf(lane.signals)
    ensures AfterSignals(f, lane.signals + coming, AfterMails(f, lane.mails, lane.shown)) ==
            ShownOf(f, LastOf(gone + coming))
  {
    hide Encode;
    hide Decode;
    hide AfterMails;
    var values := lane.signals + coming;
    if values != [] {
      var last := values[|values| - 1];
      assert last in values && Typed(f, last);
      TypedShows(f, last);
      assert LastOf(gone + coming) == Some(last);
    } else {
      assert gone + coming == gone;
    }
  }

  lemma HeadingStored(f: Field, s: Pipeline)
    requires s.taken <= |s.ecu.board.sent|
    requires LaneOk(f, s.lanes.Of(f), s.ecu.board.sent[..s.taken])
    ensures Heading(f, s) == ShownOf(f, LastOf(ToldAll(f, Payloads(s.ecu.board.sent, ServiceOf(f)))))
  {
    hide ToldAll;
    hide Payloads;
    hide Encode;
    hide ShownOf;
    hide AfterSignals;
    hide AfterMails;
    var sent, service := s.ecu.board.sent, ServiceOf(f);
    ToldSplit(f, sent, s.taken);
    ToldTyped(f, Payloads(sent[s.taken..], service));
    NewestShown(f, s.lanes.Of(f), ToldAll(f, Payloads(sent[..s.taken], service)),
                ToldAll(f, Payloads(sent[s.taken..], service)));
  }

  /** Once everything in flight has been passed on, every field shows the ECU's state. */
  ghost predicate Mirrors(s: Pipeline) {
    s.taken <= |s.ecu.board.sent| && forall f :: Heading(f, s) == Expected(f, s.ecu)
  }

  lemma LosslessMirrors(w: Wiring, s: Pipeline)
    requires Lossless(w, s)
    ensures Mirrors(s)
  {
    hide Heading;
    hide Expected;
    hide ToldAll;
    forall f: Field
      ensures Heading(f, s) == Expected(f, s.ecu)
    {
      HeadingStored(f, s);
      LastEventTells(w, s.ecu, f);
    }
  }

  // ----- The steps keep it -----

  lemma SubjectsDiffer(f: Field, g: Field)
    ensures SubjectOf(f) == SubjectOf(g) <==> f == g
  {
  }

  lemma MailMeets(f: Field, g: Field, vin: string)
    ensures Matches(Wildcard(SubjectOf(g)), Concrete(SubjectOf(f), vin)) <==> f == g && DotFree(vin)
  {
    SubscriptionRoutes(SubjectOf(g), SubjectOf(f), vin);
    SubjectsDiffer(f, g);
  }

  function MailOf(f: Field, vin: string, value: SignalValue): Mail
    requires Typed(f, value)
  {
    Mail(Concrete(SubjectOf(f), vin), Encode(f, value).value)
  }

  function Mailed(f: Field, lane: Lane, vin: string, value: SignalValue): Lane
    requires Typed(f, value)
  {
    lane.(mails := lane.mails + [MailOf(f, vin, value)])
  }

  /** A value published for a field arrives in the field's own lane, and nowhere if the VIN has a dot. */
  lemma PublishReaches(lanes: Lanes, f: Field, vin: string, value: SignalValue)
    requires Typed(f, value)
    ensures Publish(lanes, f, vin, value) ==
            if DotFree(vin) then lanes.With(f, Mailed(f, lanes.Of(f), vin, value)) else lanes
  {
    hide Matches;
    hide Concrete;
    hide Wildcard;
    hide DotFree;
    hide Encode;
    MailMeets(f, LockField, vin);
    MailMeets(f, ModeField, vin);
    MailMeets(f, SpeedField, vin);
    MailMeets(f, LightField, vin);
  }

  lemma OneMoreMail(f: Field, mails: seq<Mail>, mail: Mail, shown: Option<Shown>)
    requires Decode(f, mail.data).Some?
    ensures AfterMails(f, mails + [mail], shown) == Decode(f, mail.data)
  {
    hide Decode;
    assert (mails + [mail])[..|mails|] == mails;
  }

  lemma {:induction false} FirstMail(f: Field, mails: seq<Mail>, shown: Option<Shown>)
    requires mails != []
    ensures AfterMails(f, mails, shown) == AfterMails(f, mails[1..], Show(f, mails[0].data, shown))
  {
    hide Show;
    if |mails| > 1 {
      FirstMail(f, mails[..|mails| - 1], shown);
      assert mails[1..][..|mails| - 2] == mails[..|mails| - 1][1..];
    } else {
      assert mails[..0] == [] && mails[1..] == [];
    }
  }

  /**
   * What breaks the mirror: a delivery that is lost because the VIN has a dot, and a stale value pushed
   * when nothing newer waits.
   */
  predicate Disturbs(s: Pipeline, a: Action) {
    match a
    case Deliver(f) =>
      var lane := s.lanes.Of(f);
      && !s.locked && |lane.signals| == 1 && !DotFree(s.vin)
      && AfterMails(f, lane.mails, lane.shown) != ShownOf(f, Some(lane.signals[0]))
    case Push(t) =>
      && t in s.fetched && DotFree(s.vin)
      && var x := s.fetched[t];
      && s.lanes.Of(x.field).signals == []
      && ShownOf(x.field, Some(x.value)) != ShownOf(x.field, s.lanes.Of(x.field).stored)
    case _ => false
  }

  lemma EcuKeeps(w: Wiring, s: Pipeline, input: Input)
    requires Lossless(w, s)
    ensures Lossless(w, Act(w, s, EcuStep(input)))
  {
    hide Step;
    hide Consistent;
    hide LaneOk;
    hide FetchedOk;
    StepKeeps(w, s.ecu, input);
    StepGrows(w, s.ecu, input);
    FetchedSame(s, Act(w, s, EcuStep(input)));
    assert Step(w, s.ecu, input).board.sent[..s.taken] == s.ecu.board.sent[..s.taken];
  }

  lemma OneMoreTold(f: Field, told: seq<Message>, e: Message)
    ensures ToldAll(f, Payloads(told + [e], ServiceOf(f))) ==
            ToldAll(f, Payloads(told, ServiceOf(f))) +
            if e.service == ServiceOf(f) && e.id == EVENT && Told(f, e.payload).Some? then [Told(f, e.payload).value]
            else []
  {
    hide Told;
    assert (told + [e])[..|told|] == told;
    var before := Payloads(told, ServiceOf(f));
    if e.service == ServiceOf(f) && e.id == EVENT {
      assert (before + [e.payload])[..|before|] == before;
    }
  }

  lemma PathsDiffer(f: Field, path: SignalPath)
    ensures FieldAt(path) == Some(f) <==> path == PathOf(f)
  {
  }

  lemma BridgeLane(f: Field, lanes: Lanes, told: seq<Message>, e: Message)
    requires LaneOk(f, lanes.Of(f), told)
    ensures var lanes' := if Bridged(e).None? then lanes else Put(lanes, Bridged(e).value);
            && LaneOk(f, lanes'.Of(f), told + [e])
            && (lanes'.Of(f).signals == [] ==> lanes'.Of(f) == lanes.Of(f))
  {
    hide Bridged;
    hide Told;
    hide ToldAll;
    hide Payloads;
    hide Encode;
    hide ShownOf;
    hide AfterMails;
    OneMoreTold(f, told, e);
    BridgeRoutes(f, e);
    ToldTyped(f, Payloads(told + [e], ServiceOf(f)));
    if Bridged(e).Some? {
      PathsDiffer(f, Bridged(e).value.path);
    }
    var lane, before := lanes.Of(f), ToldAll(f, Payloads(told, ServiceOf(f)));
    if e.service == ServiceOf(f) && e.id == EVENT && Told(f, e.payload).Some? {
      var value := Told(f, e.payload).value;
      assert value in before + [value];
      LanesOf(lanes, f, Stored(lane, value), lane);
    }
  }

  lemma BridgeKeeps(w: Wiring, s: Pipeline)
    requires Flows(s)
    ensures Flows(Act(w, s, BridgeStep))
  {
    hide Bridged;
    hide LaneOk;
    hide Encode;
    hide Put;
    if s.taken < |s.ecu.board.sent| {
      var told, e := s.ecu.board.sent[..s.taken], s.ecu.board.sent[s.taken];
      assert s.ecu.board.sent[..s.taken + 1] == told + [e];
      forall f: Field
        ensures LaneOk(f, Act(w, s, BridgeStep).lanes.Of(f), told + [e])
        ensures var lane := Act(w, s, BridgeStep).lanes.Of(f);
                lane.signals == [] ==> lane == s.lanes.Of(f)
      {
        BridgeLane(f, s.lanes, told, e);
      }
    }
  }

  lemma OneLane(s: Pipeline, s': Pipeline, f: Field, lane: Lane)
    requires Flows(s)
    requires s'.ecu == s.ecu && s'.taken == s.taken && s'.lanes == s.lanes.With(f, lane)
    ensures Flows(s') <==> LaneOk(f, lane, s.ecu.board.sent[..s.taken]) && FetchedOk(s')
  {
    hide LaneOk;
    hide FetchedOk;
    assert s'.lanes.Of(f) == lane && forall g :: g != f ==> s'.lanes.Of(g) == s.lanes.Of(g);
    var told := s.ecu.board.sent[..s.taken];
    if LaneOk(f, lane, told) {
      forall g: Field
        ensures LaneOk(g, s'.lanes.Of(g), told)
      {
      }
    }
  }

  lemma LanesOf(lanes: Lanes, f: Field, a: Lane, b: Lane)
    ensures lanes.With(f, a).With(f, b) == lanes.With(f, b) && lanes.With(f, lanes.Of(f)) == lanes
    ensures lanes.With(f, a).Of(f) == a
  {
  }

  lemma DeliverLane(f: Field, lane: Lane, vin: string, told: seq<Message>)
    requires LaneOk(f, lane, told) && lane.signals != []
    ensures var rest := lane.(signals := lane.signals[1..]);
            && Typed(f, lane.signals[0])
            && LaneOk(f, Mailed(f, rest, vin, lane.signals[0]), told)
            && (LaneOk(f, rest, told) <==>
                |lane.signals| > 1 || AfterMails(f, lane.mails, lane.shown) == ShownOf(f, Some(lane.signals[0])))
  {
    hide ToldAll;
    hide Payloads;
    hide Encode;
    hide ShownOf;
    hide AfterMails;
    hide LastOf;
    hide Decode;
    var rest, value := lane.(signals := lane.signals[1..]), lane.signals[0];
    FirstAndRest(lane.signals);
    TypedShows(f, value);
    OneMoreMail(f, lane.mails, MailOf(f, vin, value), lane.shown);
    hide Mailed;
    MailedQueues(f, rest, vin, value);
    hide Typed;
  }

  lemma FirstAndRest(signals: seq<SignalValue>)
    requires signals != []
    ensures signals[0] in signals && forall v :: v in signals[1..] ==> v in signals
    ensures LastOf(signals) == if |signals| == 1 then Some(signals[0]) else LastOf(signals[1..])
    ensures signals[1..] == [] <==> |signals| == 1
  {
  }

  lemma MailedQueues(f: Field, lane: Lane, vin: string, value: SignalValue)
    requires Typed(f, value)
    ensures var mailed := Mailed(f, lane, vin, value);
            && mailed.mails == lane.mails + [MailOf(f, vin, value)]
            && mailed.signals == lane.signals && mailed.stored == lane.stored && mailed.shown == lane.shown
  {
  }

  lemma DeliverKeeps(w: Wiring, s: Pipeline, f: Field)
    requires Flows(s)
    ensures Flows(Act(w, s, Deliver(f))) <==> !Disturbs(s, Deliver(f))
  {
    hide Flows;
    hide LaneOk;
    hide Encode;
    hide ShownOf;
    hide AfterMails;
    hide DeliverStep;
    hide DotFree;
    hide Mailed;
    var lane := s.lanes.Of(f);
    if !s.locked && lane.signals != [] {
      LaneParts(s, f);
      var told, s' := s.ecu.board.sent[..s.taken], Act(w, s, Deliver(f));
      DeliverLane(f, lane, s.vin, told);
      DeliverShape(s, f);
      OneLane(s, s', f, Delivered(s, f));
      FetchedStay(s, s');
    } else {
      NotDelivered(s, f);
    }
  }

  lemma NotDelivered(s: Pipeline, f: Field)
    requires s.locked || s.lanes.Of(f).signals == []
    ensures DeliverStep(f, s) == s
  {
  }

  lemma LaneParts(s: Pipeline, f: Field)
    requires Flows(s)
    ensures s.taken <= |s.ecu.board.sent| && FetchedOk(s)
    ensures LaneOk(f, s.lanes.Of(f), s.ecu.board.sent[..s.taken])
    ensures s.lanes.Of(f).signals != [] ==> Typed(f, s.lanes.Of(f).signals[0])
  {
    hide Encode;
    assert s.lanes.Of(f).signals != [] ==> s.lanes.Of(f).signals[0] in s.lanes.Of(f).signals;
  }

  function Delivered(s: Pipeline, f: Field): Lane
    requires s.lanes.Of(f).signals != [] && Typed(f, s.lanes.Of(f).signals[0])
  {
    var lane := s.lanes.Of(f);
    var rest := lane.(signals := lane.signals[1..]);
    if DotFree(s.vin) then Mailed(f, rest, s.vin, lane.signals[0]) else rest
  }

  lemma DeliverShape(s: Pipeline, f: Field)
    requires !s.locked && s.lanes.Of(f).signals != [] && Typed(f, s.lanes.Of(f).signals[0])
    ensures DeliverStep(f, s) == s.(lanes := s.lanes.With(f, Delivered(s, f)))
  {
    hide Publish;
    hide Encode;
    hide DotFree;
    var lane := s.lanes.Of(f);
    var rest := lane.(signals := lane.signals[1..]);
    PublishReaches(s.lanes.With(f, rest), f, s.vin, lane.signals[0]);
    LanesOf(s.lanes, f, rest, Delivered(s, f));
  }

  lemma FetchedStay(s: Pipeline, s': Pipeline)
    requires FetchedOk(s) && s'.fetched == s.fetched && !s.locked
    ensures FetchedOk(s')
  {
  }

  lemma PushLane(f: Field, lane: Lane, vin: string, value: SignalValue, told: seq<Message>)
    requires LaneOk(f, lane, told) && Typed(f, value)
    ensures LaneOk(f, Mailed(f, lane, vin, value), told) <==>
            lane.signals != [] || ShownOf(f, Some(value)) == ShownOf(f, lane.stored)
  {
    hide ToldAll;
    hide Payloads;
    hide Encode;
    hide Decode;
    hide ShownOf;
    hide AfterMails;
    TypedShows(f, value);
    OneMoreMail(f, lane.mails, MailOf(f, vin, value), lane.shown);
  }

  lemma PushKeeps(w: Wiring, s: Pipeline, t: Republisher)
    requires Flows(s)
    ensures Flows(Act(w, s, Push(t))) <==> !Disturbs(s, Push(t))
  {
    hide Flows;
    hide LaneOk;
    hide FetchedOk;
    hide Lanes.With;
    hide Encode;
    hide ShownOf;
    hide PushStep;
    hide Typed;
    hide DotFree;
    hide Mailed;
    if t in s.fetched {
      var x := s.fetched[t];
      FetchedParts(s, t);
      var s', pushed := Act(w, s, Push(t)), Pushed(s, t);
      PushShape(s, t);
      PushLane(x.field, s.lanes.Of(x.field), s.vin, x.value, s.ecu.board.sent[..s.taken]);
      OneLane(s, s', x.field, pushed);
      SameQueues(s.lanes, x.field, pushed);
      FetchedLess(s, s', t);
    } else {
      NotFetched(s, t);
    }
  }

  lemma NotFetched(s: Pipeline, t: Republisher)
    requires t !in s.fetched
    ensures PushStep(t, s) == s
  {
  }

  lemma FetchedParts(s: Pipeline, t: Republisher)
    requires Flows(s) && t in s.fetched
    ensures Typed(s.fetched[t].field, s.fetched[t].value) && FetchedOk(s) && s.taken <= |s.ecu.board.sent|
    ensures LaneOk(s.fetched[t].field, s.lanes.Of(s.fetched[t].field), s.ecu.board.sent[..s.taken])
  {
    hide LaneOk;
    hide Encode;
  }

  function Pushed(s: Pipeline, t: Republisher): (lane: Lane)
    requires t in s.fetched && Typed(s.fetched[t].field, s.fetched[t].value)
    ensures var was := s.lanes.Of(s.fetched[t].field); lane.signals == was.signals && lane.stored == was.stored
  {
    var x := s.fetched[t];
    if DotFree(s.vin) then Mailed(x.field, s.lanes.Of(x.field), s.vin, x.value) else s.lanes.Of(x.field)
  }

  lemma PushShape(s: Pipeline, t: Republisher)
    requires t in s.fetched && Typed(s.fetched[t].field, s.fetched[t].value)
    ensures PushStep(t, s).fetched == s.fetched - {t}
    ensures PushStep(t, s) ==
            s.(fetched := s.fetched - {t}, lanes := s.lanes.With(s.fetched[t].field, Pushed(s, t)))
  {
    var x := s.fetched[t];
    PublishReaches(s.lanes, x.field, s.vin, x.value);
    LanesOf(s.lanes, x.field, s.lanes.Of(x.field), s.lanes.Of(x.field));
    hide Publish;
    hide Encode;
    hide DotFree;
  }

  lemma SameQueues(lanes: Lanes, f: Field, lane: Lane)
    requires lane.signals == lanes.Of(f).signals && lane.stored == lanes.Of(f).stored
    ensures forall g ::
              && lanes.With(f, lane).Of(g).signals == lanes.Of(g).signals
              && lanes.With(f, lane).Of(g).stored == lanes.Of(g).stored
  {
  }

  lemma FetchedLess(s: Pipeline, s': Pipeline, t: Republisher)
    requires FetchedOk(s) && s'.fetched == s.fetched - {t} && s'.locked == s.locked
    requires forall f ::
               s'.lanes.Of(f).signals == s.lanes.Of(f).signals && s'.lanes.Of(f).stored == s.lanes.Of(f).stored
    ensures FetchedOk(s')
  {
    hide Encode;
  }

  lemma AppKeeps(w: Wiring, s: Pipeline, f: Field)
    requires Flows(s)
    ensures Flows(Act(w, s, AppReceives(f)))
  {
    hide Flows;
    hide LaneOk;
    hide FetchedOk;
    hide Lanes.With;
    hide Encode;
    hide Show;
    hide LearnVin;
    LaneParts(s, f);
    var lane := s.lanes.Of(f);
    if lane.mails != [] {
      var s', lane' := Act(w, s, AppReceives(f)), Opened(f, lane);
      OpenedKeeps(f, lane, s.ecu.board.sent[..s.taken]);
      OneLane(s, s', f, lane');
      SameQueues(s.lanes, f, lane');
      FetchedSame(s, s');
    }
  }

  function Opened(f: Field, lane: Lane): Lane
    requires lane.mails != []
  {
    lane.(mails := lane.mails[1..], shown := Show(f, lane.mails[0].data, lane.shown))
  }

  lemma OpenedKeeps(f: Field, lane: Lane, told: seq<Message>)
    requires LaneOk(f, lane, told) && lane.mails != []
    ensures LaneOk(f, Opened(f, lane), told)
  {
    hide ToldAll;
    hide Payloads;
    hide Encode;
    hide Show;
    hide ShownOf;
    FirstMail(f, lane.mails, lane.shown);
    hide AfterMails;
  }

  lemma FetchedSame(s: Pipeline, s': Pipeline)
    requires FetchedOk(s) && s'.fetched == s.fetched && s'.locked == s.locked
    requires forall f ::
               s'.lanes.Of(f).signals == s.lanes.Of(f).signals && s'.lanes.Of(f).stored == s.lanes.Of(f).stored
    ensures FetchedOk(s')
  {
    hide Encode;
  }

  /** A step keeps the dashboard heading for the truth iff it does not disturb. */
  lemma StepMirrors(w: Wiring, s: Pipeline, a: Action)
    requires Lossless(w, s)
    ensures Lossless(w, Act(w, s, a)) <==> !Disturbs(s, a)
  {
    hide Flows;
    hide Act;
    if a.EcuStep? {
      EcuKeeps(w, s, a.input);
    } else {
      StepFlows(w, s, a);
      SameEcu(w, s, a);
    }
    hide Consistent;
  }

  lemma SameEcu(w: Wiring, s: Pipeline, a: Action)
    requires !a.EcuStep?
    ensures Act(w, s, a).ecu == s.ecu
  {
    hide Bridged;
    hide Put;
    hide Publish;
    hide Show;
    hide LearnVin;
    hide Matches;
  }

  /** A step behind the ECU keeps its events flowing iff it does not disturb, whatever these events are. */
  lemma StepFlows(w: Wiring, s: Pipeline, a: Action)
    requires Flows(s) && !a.EcuStep?
    ensures Flows(Act(w, s, a)) <==> !Disturbs(s, a)
  {
    hide Flows;
    hide Act;
    match a {
      case BridgeStep => BridgeKeeps(w, s);
      case Deliver(f) => DeliverKeeps(w, s, f);
      case Push(t) => PushKeeps(w, s, t);
      case AppReceives(f) => AppKeeps(w, s, f);
      case Fetch(t, f) => FetchKeeps(w, s, t, f);
      case _ => OthersKeep(w, s, a);
    }
  }

  /** VIN changes and their mails touch no lane. */
  lemma OthersKeep(w: Wiring, s: Pipeline, a: Action)
    requires a.VinSignal? || a.VinDone? || a.VinResponse? || a.AppReceivesVin?
    requires Flows(s)
    ensures Flows(Act(w, s, a))
  {
    hide LaneOk;
    hide Encode;
    hide Matches;
  }

  lemma FetchKeeps(w: Wiring, s: Pipeline, t: Republisher, f: Field)
    requires Flows(s)
    ensures Flows(Act(w, s, Fetch(t, f)))
  {
    hide LaneOk;
    hide FetchedOk;
    hide Typed;
    hide Lanes.With;
    var lane, told := s.lanes.Of(f), s.ecu.board.sent[..s.taken];
    LanesOf(s.lanes, f, lane, lane);
    OneLane(s, Act(w, s, Fetch(t, f)), f, lane);
    if lane.stored.Some? {
      StoredTyped(f, lane, told);
    }
    FetchFresh(w, s, t, f);
  }

  /** What is fetched is the newest value there is. */
  lemma FetchFresh(w: Wiring, s: Pipeline, t: Republisher, f: Field)
    requires FetchedOk(s)
    requires s.lanes.Of(f).stored.Some? ==> Typed(f, s.lanes.Of(f).stored.value)
    ensures FetchedOk(Act(w, s, Fetch(t, f)))
  {
    hide Typed;
  }

  lemma StoredTyped(f: Field, lane: Lane, told: seq<Message>)
    requires LaneOk(f, lane, told) && lane.stored.Some?
    ensures Typed(f, lane.stored.value)
    ensures lane.signals == [] ==> AfterMails(f, lane.mails, lane.shown) == ShownOf(f, lane.stored)
  {
    var values := ToldAll(f, Payloads(told, ServiceOf(f)));
    ToldTyped(f, Payloads(told, ServiceOf(f)));
    assert lane.stored.value in values;
  }

  // ----- Whole runs -----

  lemma IdleLossless(w: Wiring, vin: string)
    ensures Lossless(w, Idle(vin))
  {
    PoweredConsistent(w);
    hide Consistent;
    forall f: Field
      ensures LaneOk(f, Idle(vin).lanes.Of(f), [])
    {
      assert Payloads([], ServiceOf(f)) == [];
      assert ToldAll(f, []) == [];
      NothingShown(f);
    }
  }

  ghost predicate UndisturbedFrom(w: Wiring, s: Pipeline, actions: seq<Action>) {
    forall i :: 0 <= i < |actions| ==> !Disturbs(Run(w, s, actions[..i]), actions[i])
  }

  ghost predicate Undisturbed(w: Wiring, vin: string, actions: seq<Action>) {
    UndisturbedFrom(w, Idle(vin), actions)
  }

  predicate Drained(s: Pipeline) {
    s.taken == |s.ecu.board.sent| && forall f :: s.lanes.Of(f).signals == [] && s.lanes.Of(f).mails == []
  }

  lemma {:induction false} AlwaysLossless(w: Wiring, vin: string, actions: seq<Action>)
    requires Undisturbed(w, vin, actions)
    ensures Lossless(w, Run(w, Idle(vin), actions))
  {
    hide Act;
    hide Disturbs;
    hide Lossless;
    if actions == [] {
      IdleLossless(w, vin);
    } else {
      var before := actions[..|actions| - 1];
      assert forall i :: 0 <= i < |before| ==> before[i] == actions[i] && before[..i] == actions[..i];
      AlwaysLossless(w, vin, before);
      StepMirrors(w, Run(w, Idle(vin), before), actions[|actions| - 1]);
    }
  }

  /** Without a disturbance the dashboard always heads for the truth, and shows it once all has arrived. */
  lemma DashboardMirrors(w: Wiring, vin: string, actions: seq<Action>)
    requires Undisturbed(w, vin, actions)
    ensures var s := Run(w, Idle(vin), actions);
            Mirrors(s) && (Drained(s) ==> forall f :: s.lanes.Of(f).shown == Expected(f, s.ecu))
  {
    hide Lossless;
    hide Expected;
    hide Run;
    var s := Run(w, Idle(vin), actions);
    AlwaysLossless(w, vin, actions);
    LosslessMirrors(w, s);
    if Drained(s) {
      forall f: Field
        ensures Heading(f, s) == s.lanes.Of(f).shown
      {
        NothingComing(f, s);
      }
    }
  }

  lemma NothingComing(f: Field, s: Pipeline)
    requires Drained(s)
    ensures Heading(f, s) == s.lanes.Of(f).shown
  {
    assert s.ecu.board.sent[s.taken..] == [];
    assert Payloads([], ServiceOf(f)) == [];
    assert ToldAll(f, []) == [];
  }

  /** No VIN has a dot, and the state is republished under the broker client's mutex only. */
  predicate Orderly(a: Action) {
    match a
    case VinSignal(vin) => DotFree(vin)
    case VinResponse(vin) => DotFree(vin)
    case Push(t) => t == StreamThread
    case _ => true
  }

  lemma OrderlyHarmless(w: Wiring, s: Pipeline, a: Action)
    requires Lossless(w, s) && DotFree(s.vin) && Orderly(a)
    ensures !Disturbs(s, a) && DotFree(Act(w, s, a).vin)
  {
    hide Consistent;
    hide LaneOk;
    hide ShownOf;
    hide Encode;
    hide Matches;
    hide AfterMails;
    hide DotFree;
    hide Bridged;
    hide Put;
    hide Publish;
  }

  lemma {:induction false} OrderlyUndisturbed(w: Wiring, vin: string, actions: seq<Action>)
    requires DotFree(vin) && forall a :: a in actions ==> Orderly(a)
    ensures Undisturbed(w, vin, actions)
    ensures DotFree(Run(w, Idle(vin), actions).vin)
  {
    hide Act;
    hide Disturbs;
    hide Orderly;
    hide DotFree;
    hide Lossless;
    if actions != [] {
      var before, a := actions[..|actions| - 1], actions[|actions| - 1];
      OrderlyUndisturbed(w, vin, before);
      AlwaysLossless(w, vin, before);
      OrderlyHarmless(w, Run(w, Idle(vin), before), a);
      assert forall i :: 0 <= i < |before| ==> before[i] == actions[i] && before[..i] == actions[..i];
    }
  }
}
