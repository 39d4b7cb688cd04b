/** A disturbance shows on the dashboard, and one can be reached. */
module StaleUpdates {
  import opened Ports
  import opened Lighting
  import opened BodyEcu
  import opened EventTraces
  import opened NatsSubjects
  import opened KuksaBridge
  import opened CloudGateway
  import opened CompanionApp
  import opened StatePipeline
  import opened DashboardMirror

  // ----- Disturbances are visible, and can happen -----

  lemma EmptyHeading(f: Field, s: Pipeline)
    requires s.taken == |s.ecu.board.sent| && s.lanes.Of(f).signals == []
    ensures Heading(f, s) == AfterMails(f, s.lanes.Of(f).mails, s.lanes.Of(f).shown)
  {
    assert s.ecu.board.sent[s.taken..] == [];
    assert Payloads([], ServiceOf(f)) == [];
    assert ToldAll(f, []) == [];
    hide AfterMails;
  }

  lemma DeliveryLost(s: Pipeline, f: Field)
    requires Flows(s) && s.taken == |s.ecu.board.sent| && Disturbs(s, Deliver(f))
    ensures Heading(f, DeliverStep(f, s)) != Heading(f, s)
  {
    hide Heading;
    hide Flows;
    hide LaneOk;
    hide Encode;
    hide ShownOf;
    hide AfterMails;
    hide DotFree;
    hide Mailed;
    LaneParts(s, f);
    HeadingStored(f, s);
    DeliverShape(s, f);
    LostShape(s, f);
    EmptyHeading(f, DeliverStep(f, s));
    OneWaiting(f, s.lanes.Of(f), s.ecu.board.sent);
    hide ToldAll;
    hide Payloads;
    hide DeliverStep;
  }

  lemma LostShape(s: Pipeline, f: Field)
    requires Disturbs(s, Deliver(f)) && Typed(f, s.lanes.Of(f).signals[0])
    ensures DeliverStep(f, s).lanes.Of(f) == s.lanes.Of(f).(signals := [])
  {
    hide DotFree;
    hide Encode;
    hide ShownOf;
    hide AfterMails;
    hide Mailed;
    hide DeliverStep;
    DeliverShape(s, f);
    LanesOf(s.lanes, f, Delivered(s, f), Delivered(s, f));
  }

  lemma OneWaiting(f: Field, lane: Lane, told: seq<Message>)
    requires LaneOk(f, lane, told[..|told|]) && |lane.signals| == 1
    ensures LastOf(ToldAll(f, Payloads(told, ServiceOf(f)))) == Some(lane.signals[0])
  {
    assert told[..|told|] == told;
  }

  /** With nothing waiting, the field is heading for the value just pushed. */
  lemma PushedHeading(s: Pipeline, t: Republisher)
    requires Flows(s) && s.taken == |s.ecu.board.sent| && t in s.fetched && DotFree(s.vin)
    requires s.lanes.Of(s.fetched[t].field).signals == []
    ensures var f := s.fetched[t].field; Heading(f, PushStep(t, s)) == ShownOf(f, Some(s.fetched[t].value))
  {
    hide Flows;
    hide LaneOk;
    hide FetchedOk;
    hide Heading;
    hide Encode;
    hide AfterMails;
    hide ShownOf;
    hide PushStep;
    hide DotFree;
    var f, value := s.fetched[t].field, s.fetched[t].value;
    FetchedParts(s, t);
    PushShape(s, t);
    LanesOf(s.lanes, f, Pushed(s, t), Pushed(s, t));
    TypedShows(f, value);
    OneMoreMail(f, s.lanes.Of(f).mails, MailOf(f, s.vin, value), s.lanes.Of(f).shown);
    EmptyHeading(f, PushStep(t, s));
  }

  lemma StalePushed(s: Pipeline, t: Republisher)
    requires Flows(s) && s.taken == |s.ecu.board.sent| && Disturbs(s, Push(t))
    ensures var f := s.fetched[t].field; Heading(f, PushStep(t, s)) != Heading(f, s)
  {
    hide Flows;
    hide LaneOk;
    hide FetchedOk;
    hide Heading;
    hide Encode;
    hide AfterMails;
    hide ShownOf;
    hide PushStep;
    var f := s.fetched[t].field;
    FetchedParts(s, t);
    PushedHeading(s, t);
    EmptyHeading(f, s);
    LaneShows(f, s.lanes.Of(f), s.ecu.board.sent);
  }

  lemma LaneShows(f: Field, lane: Lane, told: seq<Message>)
    requires LaneOk(f, lane, told[..|told|]) && lane.signals == []
    ensures AfterMails(f, lane.mails, lane.shown) == ShownOf(f, lane.stored)
  {
  }

  /** With no event between ECU and bridge, a step behind them leaves the dashboard right iff it does not disturb. */
  lemma HopMirrors(w: Wiring, s: Pipeline, a: Action)
    requires Lossless(w, s) && s.taken == |s.ecu.board.sent| && !a.EcuStep?
    ensures Act(w, s, a).taken == |Act(w, s, a).ecu.board.sent|
    ensures Mirrors(Act(w, s, a)) <==> !Disturbs(s, a)
  {
    StepMirrors(w, s, a);
    LosslessMirrors(w, s);
    if !Disturbs(s, a) {
      LosslessMirrors(w, Act(w, s, a));
    } else if a.Deliver? {
      DeliveryLost(s, a.field);
    } else {
      StalePushed(s, a.thread);
    }
    hide Flows;
    hide Heading;
    hide Expected;
    hide Publish;
    hide Disturbs;
  }

  lemma RunOneMore(w: Wiring, s: Pipeline, actions: seq<Action>, a: Action)
    ensures Run(w, s, actions + [a]) == Act(w, Run(w, s, actions), a)
  {
    hide Act;
    assert (actions + [a])[..|actions|] == actions;
  }

  function Switch(on: bool): Input {
    MethodCall(LIGHTING, SET_LIGHT_STATE, [0, if on then 1 else 0])
  }

  const LIT: Lights := [true, false, false]
  const DARK: Lights := [false, false, false]

  lemma Switched(w: Wiring)
    requires Reaches(w, LIGHTING, SET_LIGHT_STATE, LIGHTING, SET_LIGHT_STATE)
    ensures POWERED.board.sent == []
    ensures var e := Step(w, POWERED, Switch(true));
            && e.lights == LIT && e.board.sent == [Message(LIGHTING, EVENT, Bytes(LIT))]
            && Step(w, e, Switch(false)).board.sent == e.board.sent + [Message(LIGHTING, EVENT, Bytes(DARK))]
            && Step(w, e, Switch(false)).lights == DARK
  {
    assert DARK[0 := true] == LIT;
    assert LIT[0 := false] == DARK;
    hide Bytes;
    hide HandlerOf;
  }

  function Passing(on: bool): seq<Action> {
    [EcuStep(Switch(on)), BridgeStep, Deliver(LightField)]
  }

  function Fetching(): seq<Action> {
    Passing(true) + [Fetch(FreeThread(0), LightField)]
  }

  /** A free thread fetches the lights, is overtaken by a newer state, and then pushes the old one. */
  function Overtaking(): seq<Action> {
    Fetching() + Passing(false) + [Push(FreeThread(0))]
  }

  lemma BridgedLights(on: Lights)
    ensures var e := Message(LIGHTING, EVENT, Bytes(on));
            && Bridged(e) == Some(Publication(LightStatus, Told(LightField, Bytes(on)).value))
            && Typed(LightField, Told(LightField, Bytes(on)).value)
  {
    LightsTravel(Bytes(on), on);
    BridgeRoutes(LightField, Message(LIGHTING, EVENT, Bytes(on)));
    ToldTyped(LightField, [Bytes(on)]);
    hide Bridged;
  }

  lemma LightsPass(w: Wiring, s: Pipeline, on: Lights)
    requires s.taken == |s.ecu.board.sent| - 1 && s.ecu.board.sent[s.taken] == Message(LIGHTING, EVENT, Bytes(on))
    requires s.lanes.light.signals == [] && !s.locked && DotFree(s.vin)
    ensures var value := Told(LightField, Bytes(on)).value;
            && Typed(LightField, value)
            && var s1 := Act(w, s, BridgeStep);
            && s1 == s.(taken := s.taken + 1, lanes := s.lanes.(light := Stored(s.lanes.light, value)))
            && var s2 := Act(w, s1, Deliver(LightField));
            && s2 == s1.(lanes := s1.lanes.(light := s2.lanes.light))
            && s2.lanes.light.signals == [] && s2.lanes.light.stored == Some(value)
  {
    hide Bridged;
    hide Told;
    hide Encode;
    hide Publish;
    hide DotFree;
    BridgedLights(on);
    var s1 := Act(w, s, BridgeStep);
    DeliverShape(s1, LightField);
  }

  lemma RunPassing(w: Wiring, s: Pipeline, actions: seq<Action>, on: bool)
    ensures var s1 := Act(w, Run(w, s, actions), EcuStep(Switch(on)));
            Run(w, s, actions + Passing(on)) == Act(w, Act(w, s1, BridgeStep), Deliver(LightField))
  {
    hide Act;
    hide Run;
    hide Switch;
    var a1 := actions + [EcuStep(Switch(on))];
    RunOneMore(w, s, actions, EcuStep(Switch(on)));
    RunOneMore(w, s, a1, BridgeStep);
    RunOneMore(w, s, a1 + [BridgeStep], Deliver(LightField));
    assert actions + Passing(on) == a1 + [BridgeStep] + [Deliver(LightField)];
  }

  function Passed(w: Wiring, s: Pipeline, on: bool): Pipeline {
    Act(w, Act(w, Act(w, s, EcuStep(Switch(on))), BridgeStep), Deliver(LightField))
  }

  /** One event raised, bridged and delivered. */
  lemma PassState(w: Wiring, s: Pipeline, on: bool, lights: Lights)
    requires s.taken == |s.ecu.board.sent| && s.lanes.light.signals == [] && !s.locked && DotFree(s.vin)
    requires Step(w, s.ecu, Switch(on)).board.sent == s.ecu.board.sent + [Message(LIGHTING, EVENT, Bytes(lights))]
    ensures var s' := Passed(w, s, on);
            && Typed(LightField, Told(LightField, Bytes(lights)).value)
            && s' == s.(ecu := Step(w, s.ecu, Switch(on)), taken := s.taken + 1,
                        lanes := s.lanes.(light := s'.lanes.light))
            && s'.lanes.light.signals == []
            && s'.lanes.light.stored == Some(Told(LightField, Bytes(lights)).value)
  {
    hide Step;
    hide Told;
    hide DotFree;
    hide BridgeNext;
    hide DeliverStep;
    hide Encode;
    LightsPass(w, Act(w, s, EcuStep(Switch(on))), lights);
  }

  function Halfway(w: Wiring, vin: string): Pipeline {
    Act(w, Passed(w, Idle(vin), true), Fetch(FreeThread(0), LightField))
  }

  lemma HalfwayState(w: Wiring, vin: string)
    requires DotFree(vin) && Reaches(w, LIGHTING, SET_LIGHT_STATE, LIGHTING, SET_LIGHT_STATE)
    ensures var s := Halfway(w, vin);
            && s.ecu == Step(w, POWERED, Switch(true)) && s.taken == |s.ecu.board.sent| && s.vin == vin && !s.locked
            && s.lanes.light.signals == []
            && s.fetched == map[FreeThread(0) := Fetched(LightField, Told(LightField, Bytes(LIT)).value)]
  {
    hide Passed;
    hide Step;
    hide Told;
    hide DotFree;
    Switched(w);
    PassState(w, Idle(vin), true, LIT);
  }

  lemma RunOvertaking(w: Wiring, vin: string)
    ensures Run(w, Idle(vin), Overtaking()) == Act(w, Passed(w, Halfway(w, vin), false), Push(FreeThread(0)))
    ensures Run(w, Idle(vin), Fetching() + Passing(false)) == Passed(w, Halfway(w, vin), false)
  {
    hide Act;
    var s := Idle(vin);
    assert Run(w, s, []) == s;
    RunPassing(w, s, [], true);
    assert [] + Passing(true) == Passing(true);
    RunOneMore(w, s, Passing(true), Fetch(FreeThread(0), LightField));
    RunPassing(w, s, Fetching(), false);
    RunOneMore(w, s, Fetching() + Passing(false), Push(FreeThread(0)));
    hide Run;
  }

  lemma Differently(s: Pipeline)
    requires FreeThread(0) in s.fetched && DotFree(s.vin) && s.lanes.light.signals == []
    requires s.fetched[FreeThread(0)] == Fetched(LightField, Told(LightField, Bytes(LIT)).value)
    requires s.lanes.light.stored == Some(Told(LightField, Bytes(DARK)).value)
    ensures Disturbs(s, Push(FreeThread(0)))
    ensures ShownOf(LightField, Some(s.fetched[FreeThread(0)].value)) == Some(LightsShown(1))
  {
    LightsTravel(Bytes(LIT), LIT);
    LightsTravel(Bytes(DARK), DARK);
    hide Told;
    hide DotFree;
    hide ShownOf;
  }

  lemma Pushes(w: Wiring, s: Pipeline)
    ensures Act(w, s, Push(FreeThread(0))) == PushStep(FreeThread(0), s)
  {
    hide PushStep;
  }

  /** With nothing left between ECU and bridge, the dashboard is heading for light 0 on while all lights are off. */
  lemma Overtaken(w: Wiring, vin: string)
    requires DotFree(vin) && Reaches(w, LIGHTING, SET_LIGHT_STATE, LIGHTING, SET_LIGHT_STATE)
    ensures var s := Run(w, Idle(vin), Overtaking());
            && s.taken == |s.ecu.board.sent| && s.ecu.lights == DARK
            && Heading(LightField, s) == Some(LightsShown(1)) && !Mirrors(s)
  {
    hide HandlerOf;
    hide Heading;
    hide ShownOf;
    hide DotFree;
    hide Act;
    hide Step;
    hide Run;
    hide Told;
    hide Disturbs;
    hide Flows;
    hide Undisturbed;
    RunOvertaking(w, vin);
    Switched(w);
    HalfwayState(w, vin);
    PassState(w, Halfway(w, vin), false, DARK);
    hide Halfway;
    hide Passed;
    var before := Fetching() + Passing(false);
    OrderlyUndisturbed(w, vin, before);
    AlwaysLossless(w, vin, before);
    var s := Passed(w, Halfway(w, vin), false);
    Differently(s);
    HopMirrors(w, s, Push(FreeThread(0)));
    PushedHeading(s, FreeThread(0));
    assert Act(w, s, Push(FreeThread(0))) == PushStep(FreeThread(0), s) by {
      Pushes(w, s);
    }
  }
}
