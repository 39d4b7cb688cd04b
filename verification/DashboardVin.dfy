/** The VIN on the dashboard is always one the gateway has had, or the app's own default. */
module DashboardVin {
  import opened NatsSubjects
  import opened CloudSubjects
  import opened CloudGateway
  import opened CompanionApp
  import opened BodyEcu
  import opened StatePipeline
  import opened DashboardMirror
  import opened Ports

  /** The mail was published under a dot-free VIN the gateway has had. */
  ghost predicate Named(f: Field, mail: Mail, vins: set<string>) {
    exists vin :: vin in vins && DotFree(vin) && mail.subject == Concrete(SubjectOf(f), vin)
  }

  ghost predicate AllNamed(f: Field, mails: seq<Mail>, vins: set<string>) {
    forall m :: m in mails ==> Named(f, m, vins)
  }

  ghost predicate VinsKnown(s: Pipeline) {
    && s.vin in s.vins
    && (s.appVin in s.vins || s.appVin == DEFAULT_VIN)
    && (forall vin :: vin in s.vinMails ==> vin in s.vins)
    && (forall f :: AllNamed(f, s.lanes.Of(f).mails, s.vins))
  }

  lemma Learned(f: Field, vin: string, current: string)
    requires DotFree(vin)
    ensures LearnVin(Concrete(SubjectOf(f), vin), current) in {vin, current}
  {
    SubjectParts(SubjectOf(f), vin);
    SplitDotFree(vin);
    hide Split;
    hide Concrete;
  }

  lemma MoreVins(f: Field, mails: seq<Mail>, vins: set<string>, more: set<string>)
    requires AllNamed(f, mails, vins)
    ensures AllNamed(f, mails, vins + more)
  {
    forall m | m in mails
      ensures Named(f, m, vins + more)
    {
      var vin :| vin in vins && DotFree(vin) && m.subject == Concrete(SubjectOf(f), vin);
      assert vin in vins + more;
    }
    hide Concrete;
    hide DotFree;
  }

  lemma PublishNamed(lanes: Lanes, f: Field, vin: string, value: SignalValue, vins: set<string>)
    requires vin in vins && forall g :: AllNamed(g, lanes.Of(g).mails, vins)
    ensures forall g :: AllNamed(g, Publish(lanes, f, vin, value).Of(g).mails, vins)
  {
    hide Named;
    hide Concrete;
    hide Encode;
    hide DotFree;
    hide Publish;
    if Typed(f, value) {
      PublishReaches(lanes, f, vin, value);
      if DotFree(vin) {
        MailedNamed(f, lanes.Of(f), vin, value, vins);
        WithNamed(lanes, f, Mailed(f, lanes.Of(f), vin, value), vins);
      }
    } else {
      NotPublished(lanes, f, vin, value);
    }
  }

  lemma NotPublished(lanes: Lanes, f: Field, vin: string, value: SignalValue)
    requires !Typed(f, value)
    ensures Publish(lanes, f, vin, value) == lanes
  {
    hide Post;
    hide Concrete;
  }

  lemma MailedNamed(f: Field, lane: Lane, vin: string, value: SignalValue, vins: set<string>)
    requires vin in vins && DotFree(vin) && Typed(f, value) && AllNamed(f, lane.mails, vins)
    ensures AllNamed(f, Mailed(f, lane, vin, value).mails, vins)
  {
    hide Concrete;
    hide Encode;
    hide DotFree;
    var mails := Mailed(f, lane, vin, value).mails;
    assert Named(f, mails[|mails| - 1], vins);
    assert forall m :: m in mails ==> m in lane.mails || m == mails[|mails| - 1];
  }

  lemma WithNamed(lanes: Lanes, f: Field, lane: Lane, vins: set<string>)
    requires AllNamed(f, lane.mails, vins) && forall g :: AllNamed(g, lanes.Of(g).mails, vins)
    ensures forall g :: AllNamed(g, lanes.With(f, lane).Of(g).mails, vins)
  {
    hide AllNamed;
    forall g: Field
      ensures AllNamed(g, lanes.With(f, lane).Of(g).mails, vins)
    {
      assert g != f ==> AllNamed(g, lanes.Of(g).mails, vins);
    }
  }

  lemma DeliverNamed(s: Pipeline, f: Field)
    requires VinsKnown(s)
    ensures VinsKnown(DeliverStep(f, s))
  {
    hide Publish;
    hide AllNamed;
    var lane := s.lanes.Of(f);
    if !s.locked && lane.signals != [] {
      var rest := s.lanes.With(f, lane.(signals := lane.signals[1..]));
      WithNamed(s.lanes, f, lane.(signals := lane.signals[1..]), s.vins);
      PublishNamed(rest, f, s.vin, lane.signals[0], s.vins);
    }
  }

  lemma PushNamed(s: Pipeline, t: Republisher)
    requires VinsKnown(s)
    ensures VinsKnown(PushStep(t, s))
  {
    hide Publish;
    hide AllNamed;
    if t in s.fetched {
      PublishNamed(s.lanes, s.fetched[t].field, s.vin, s.fetched[t].value, s.vins);
    }
  }

  lemma RenamedNamed(s: Pipeline, vin: string)
    requires VinsKnown(s)
    ensures VinsKnown(Renamed(s, vin))
  {
    hide AllNamed;
    hide Matches;
    forall f: Field
      ensures AllNamed(f, s.lanes.Of(f).mails, s.vins + {vin})
    {
      MoreVins(f, s.lanes.Of(f).mails, s.vins, {vin});
    }
  }

  lemma AppNamed(s: Pipeline, f: Field)
    requires VinsKnown(s)
    ensures VinsKnown(AppStep(f, s))
  {
    hide Concrete;
    hide LearnVin;
    hide Show;
    hide DotFree;
    var lane := s.lanes.Of(f);
    var mails := lane.mails;
    if mails != [] {
      assert mails[0] in mails && Named(f, mails[0], s.vins);
      var vin :| vin in s.vins && DotFree(vin) && mails[0].subject == Concrete(SubjectOf(f), vin);
      Learned(f, vin, s.appVin);
      assert forall m :: m in mails[1..] ==> m in mails;
      WithNamed(s.lanes, f, lane.(mails := mails[1..], shown := Show(f, mails[0].data, lane.shown)), s.vins);
      hide Named;
      hide AllNamed;
    }
  }

  lemma BridgeNamed(s: Pipeline)
    requires VinsKnown(s)
    ensures VinsKnown(BridgeNext(s))
  {
    hide AllNamed;
    hide Bridged;
    if s.taken < |s.ecu.board.sent| {
      var p := Bridged(s.ecu.board.sent[s.taken]);
      if p.Some? && FieldAt(p.value.path).Some? {
        var f := FieldAt(p.value.path).value;
        WithNamed(s.lanes, f, Stored(s.lanes.Of(f), p.value.value), s.vins);
      }
    }
  }

  lemma ActNamed(w: Wiring, s: Pipeline, a: Action)
    requires VinsKnown(s)
    ensures VinsKnown(Act(w, s, a))
  {
    hide AllNamed;
    hide BridgeNext;
    hide Renamed;
    hide AppStep;
    hide DeliverStep;
    hide PushStep;
    match a {
      case BridgeStep => BridgeNamed(s);
      case Deliver(f) => DeliverNamed(s, f);
      case VinSignal(vin) => RenamedNamed(s, vin);
      case VinResponse(vin) => RenamedNamed(s, vin);
      case Push(t) => PushNamed(s, t);
      case AppReceives(f) => AppNamed(s, f);
      case AppReceivesVin =>
        if s.vinMails != [] {
          assert s.vinMails[0] in s.vinMails && forall v :: v in s.vinMails[1..] ==> v in s.vinMails;
        }
      case _ =>
    }
  }

  /** In every run, whatever is published when, disturbed or not. */
  lemma {:induction false} VinsAlwaysKnown(w: Wiring, vin: string, actions: seq<Action>)
    ensures VinsKnown(Run(w, Idle(vin), actions))
  {
    hide Act;
    if actions != [] {
      VinsAlwaysKnown(w, vin, actions[..|actions| - 1]);
      ActNamed(w, Run(w, Idle(vin), actions[..|actions| - 1]), actions[|actions| - 1]);
      hide VinsKnown;
    }
  }
}
