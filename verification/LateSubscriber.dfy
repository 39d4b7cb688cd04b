/** What an app that subscribes late gets to see: the state the gateway republishes, by its own subscriptions. */
module LateSubscriber {
  import opened Ports
  import opened NatsSubjects
  import opened CloudSubjects
  import opened CloudGateway
  import opened CompanionApp
  import opened StatePipeline
  import opened DashboardMirror

  /** The messages the app's subscription for a field meets. */
  function Meeting(f: Field, mails: seq<Mail>): seq<Mail> {
    if mails == [] then []
    else
      var before, mail := Meeting(f, mails[..|mails| - 1]), mails[|mails| - 1];
      if Matches(Wildcard(SubjectOf(f)), mail.subject) then before + [mail] else before
  }

  lemma {:induction false} MeetingConcat(f: Field, a: seq<Mail>, b: seq<Mail>)
    ensures Meeting(f, a + b) == Meeting(f, a) + Meeting(f, b)
  {
    hide Matches;
    hide Wildcard;
    if b == [] {
      assert a + b == a;
    } else {
      MeetingConcat(f, a, b[..|b| - 1]);
      assert (a + b)[..|a + b| - 1] == a + b[..|b| - 1];
    }
  }

  lemma MeetingOne(f: Field, mail: Mail)
    ensures Meeting(f, [mail]) == if Matches(Wildcard(SubjectOf(f)), mail.subject) then [mail] else []
  {
    hide Matches;
    hide Wildcard;
    assert [mail][..0] == [];
  }

  /** What is held of a field meets that field's subscription, and no other's. */
  lemma HeldMeets(f: Field, g: Field, vin: string, store: Store)
    requires DotFree(vin)
    ensures Meeting(f, Held(g, vin, store)) == if f == g then Held(g, vin, store) else []
  {
    hide Matches;
    hide Wildcard;
    hide Concrete;
    hide DotFree;
    hide Encode;
    hide Meeting;
    MailMeets(g, f, vin);
    if Held(g, vin, store) != [] {
      MeetingOne(f, Held(g, vin, store)[0]);
      assert Held(g, vin, store) == [Held(g, vin, store)[0]];
    } else {
      NothingMeets(f);
    }
  }

  lemma NothingMeets(f: Field)
    ensures Meeting(f, []) == []
  {
  }

  lemma StateMeets(f: Field, vin: string, store: Store)
    requires DotFree(vin)
    ensures Meeting(f, CurrentState(vin, store)) == Held(f, vin, store)
  {
    hide Meeting;
    hide Held;
    hide DotFree;
    var lock, mode := Held(LockField, vin, store), Held(ModeField, vin, store);
    var speed, light := Held(SpeedField, vin, store), Held(LightField, vin, store);
    MeetingConcat(f, lock, mode);
    MeetingConcat(f, lock + mode, speed);
    MeetingConcat(f, lock + mode + speed, light);
    HeldMeets(f, LockField, vin, store);
    HeldMeets(f, ModeField, vin, store);
    HeldMeets(f, SpeedField, vin, store);
    HeldMeets(f, LightField, vin, store);
  }

  /** What a field shows that the broker holds, and nothing for one it does not hold. */
  function ShownHeld(f: Field, store: Store): Option<Shown> {
    if PathOf(f) in store then ShownOf(f, Some(store[PathOf(f)])) else None
  }

  /** An app that has shown nothing catches up, in every field, by at most one message each. */
  lemma CatchesUp(f: Field, vin: string, store: Store, mails: seq<Mail>)
    requires DotFree(vin) && mails == CurrentState(vin, store)
    ensures AfterMails(f, Meeting(f, mails), None) == ShownHeld(f, store)
    ensures |Meeting(f, mails)| == if ShownHeld(f, store).Some? then 1 else 0
  {
    hide Meeting;
    hide Encode;
    hide Decode;
    hide DotFree;
    StateMeets(f, vin, store);
    HeldShows(f, vin, store);
  }

  lemma HeldShows(f: Field, vin: string, store: Store)
    ensures AfterMails(f, Held(f, vin, store), None) == ShownHeld(f, store)
    ensures |Held(f, vin, store)| == if ShownHeld(f, store).Some? then 1 else 0
  {
    hide Encode;
    hide Decode;
    hide Concrete;
    if PathOf(f) in store && Typed(f, store[PathOf(f)]) {
      TypedShows(f, store[PathOf(f)]);
      var mail := MailOf(f, vin, store[PathOf(f)]);
      OneMoreMail(f, [], mail, None);
      assert [] + [mail] == [mail];
    }
  }

  /** With a dot in the VIN nothing of it arrives. */
  lemma DottedLost(f: Field, vin: string, store: Store, mails: seq<Mail>)
    requires !DotFree(vin) && mails == CurrentState(vin, store)
    ensures Meeting(f, mails) == []
  {
    hide Meeting;
    hide Held;
    hide DotFree;
    var lock, mode := Held(LockField, vin, store), Held(ModeField, vin, store);
    var speed, light := Held(SpeedField, vin, store), Held(LightField, vin, store);
    MeetingConcat(f, lock, mode);
    MeetingConcat(f, lock + mode, speed);
    MeetingConcat(f, lock + mode + speed, light);
    DottedMisses(f, LockField, vin, store);
    DottedMisses(f, ModeField, vin, store);
    DottedMisses(f, SpeedField, vin, store);
    DottedMisses(f, LightField, vin, store);
  }

  lemma DottedMisses(f: Field, g: Field, vin: string, store: Store)
    requires !DotFree(vin)
    ensures Meeting(f, Held(g, vin, store)) == []
  {
    hide Matches;
    hide Wildcard;
    hide Concrete;
    hide DotFree;
    hide Encode;
    hide Meeting;
    MailMeets(g, f, vin);
    NothingMeets(f);
    if Held(g, vin, store) != [] {
      MeetingOne(f, Held(g, vin, store)[0]);
      assert Held(g, vin, store) == [Held(g, vin, store)[0]];
    }
  }

  // ----- Gateway and app together -----

  /** The app's four subscriptions. */
  method Dispatch(app: VehicleState, mail: Mail)
    modifies app
    ensures forall f :: app.Reading(f) == AfterMails(f, Meeting(f, [mail]), old(app.Reading(f)))
  {
    hide Matches;
    hide Wildcard;
    hide Meeting;
    hide VehicleState.Reading;
    hide Show;
    hide LearnVin;
    forall f
      ensures Meeting(f, [mail]) == if Matches(Wildcard(SubjectOf(f)), mail.subject) then [mail] else []
      ensures forall shown :: AfterMails(f, [mail], shown) == Show(f, mail.data, shown)
      ensures forall shown :: AfterMails(f, [], shown) == shown
    {
      MeetingOne(f, mail);
      assert [mail][..0] == [];
    }
    if Matches(Wildcard(StateLocked), mail.subject) {
      app.OnLockState(mail.subject, mail.data);
    }
    if Matches(Wildcard(StateMode), mail.subject) {
      app.OnVehicleMode(mail.subject, mail.data);
    }
    if Matches(Wildcard(StateSpeed), mail.subject) {
      app.OnVehicleSpeed(mail.subject, mail.data);
    }
    if Matches(Wildcard(StateLights), mail.subject) {
      app.OnLightStatus(mail.subject, mail.data);
    }
  }

  lemma {:induction false} MailsConcat(f: Field, a: seq<Mail>, b: seq<Mail>, shown: Option<Shown>)
    ensures AfterMails(f, a + b, shown) == AfterMails(f, b, AfterMails(f, a, shown))
  {
    hide Show;
    if b == [] {
      assert a + b == a;
    } else {
      MailsConcat(f, a, b[..|b| - 1], shown);
      assert (a + b)[..|a + b| - 1] == a + b[..|b| - 1];
    }
  }

  lemma OneMoreDispatched(f: Field, before: seq<Mail>, mail: Mail)
    ensures AfterMails(f, Meeting(f, before + [mail]), None) ==
            AfterMails(f, Meeting(f, [mail]), AfterMails(f, Meeting(f, before), None))
  {
    hide Meeting;
    hide AfterMails;
    MeetingConcat(f, before, [mail]);
    MailsConcat(f, Meeting(f, before), Meeting(f, [mail]), None);
  }

  /** A new app, and a gateway that publishes its current state: the app shows what the broker holds. */
  method CatchUp(gateway: CloudGatewayClient) returns (app: VehicleState)
    modifies gateway.transport
    ensures fresh(app)
    ensures gateway.connected && DotFree(gateway.vin) ==>
              forall f :: app.Reading(f) == ShownHeld(f, gateway.broker.store)
    ensures !gateway.connected || !DotFree(gateway.vin) ==> forall f :: app.Reading(f) == None
  {
    hide CurrentState;
    hide Meeting;
    hide AfterMails;
    hide ShownHeld;
    hide DotFree;
    hide VehicleState.Reading;
    app := new VehicleState();
    var before := gateway.transport.published;
    gateway.PublishCurrentState();
    var mails := gateway.transport.published[|before|..];
    assert mails == if gateway.connected then CurrentState(gateway.vin, gateway.broker.store) else [];
    forall f
      ensures Meeting(f, []) == [] && AfterMails(f, [], None) == None
    {
      NothingMeets(f);
      NoMails(f);
    }
    for i := 0 to |mails|
      invariant forall f :: app.Reading(f) == AfterMails(f, Meeting(f, mails[..i]), None)
    {
      Dispatch(app, mails[i]);
      assert mails[..i + 1] == mails[..i] + [mails[i]];
      forall f
        ensures AfterMails(f, Meeting(f, mails[..i + 1]), None) ==
                AfterMails(f, Meeting(f, [mails[i]]), AfterMails(f, Meeting(f, mails[..i]), None))
      {
        OneMoreDispatched(f, mails[..i], mails[i]);
      }
    }
    assert mails[..|mails|] == mails;
    forall f: Field
      ensures gateway.connected && DotFree(gateway.vin) ==>
                AfterMails(f, Meeting(f, mails), None) == ShownHeld(f, gateway.broker.store)
      ensures !gateway.connected || !DotFree(gateway.vin) ==> Meeting(f, mails) == []
    {
      if gateway.connected && DotFree(gateway.vin) {
        CatchesUp(f, gateway.vin, gateway.broker.store, mails);
      } else if gateway.connected {
        DottedLost(f, gateway.vin, gateway.broker.store, mails);
      }
    }
  }

  lemma NoMails(f: Field)
    ensures AfterMails(f, [], None) == None
  {
  }
}
