/** Everything in flight can arrive: from every state the steps behind the ECU lead to a drained one. */
module Draining {
  import opened Ports
  import opened BodyEcu
  import opened EcuInvariants
  import opened CloudSubjects
  import opened NatsSubjects
  import opened CloudGateway
  import opened CompanionApp
  import opened StatePipeline
  import opened DashboardMirror

  /** A step that only passes on what is there: bridging, delivery, pushes, reception, end of a VIN callback. */
  predicate Passes(a: Action) {
    a.BridgeStep? || a.Deliver? || a.Push? || a.VinDone? || a.AppReceives? || a.AppReceivesVin?
  }

  /** Nothing is between ECU and dashboard, and no thread is about to push. */
  predicate AllArrived(s: Pipeline) {
    Drained(s) && s.fetched == map[] && s.vinMails == [] && !s.locked
  }

  /** A continuation by passing steps; it pushes for none but the threads that have fetched. */
  predicate Continues(w: Wiring, s: Pipeline, actions: seq<Action>, s': Pipeline) {
    && Run(w, s, actions) == s'
    && (forall a :: a in actions ==> Passes(a) && (a.Push? ==> a.thread in s.fetched))
    && s'.ecu == s.ecu && s'.taken >= s.taken && s'.vin == s.vin
    && s'.fetched.Keys <= s.fetched.Keys
  }

  lemma {:induction false} RunConcat(w: Wiring, s: Pipeline, a: seq<Action>, b: seq<Action>)
    ensures Run(w, s, a + b) == Run(w, Run(w, s, a), b)
  {
    hide Act;
    if b == [] {
      assert a + b == a;
    } else {
      RunConcat(w, s, a, b[..|b| - 1]);
      assert (a + b)[..|a + b| - 1] == a + b[..|b| - 1];
    }
  }

  lemma Stays(w: Wiring, s: Pipeline)
    ensures Continues(w, s, [], s)
  {
  }

  lemma OneAction(w: Wiring, s: Pipeline, a: Action, s': Pipeline)
    requires Passes(a) && (a.Push? ==> a.thread in s.fetched) && Act(w, s, a) == s'
    requires s'.ecu == s.ecu && s'.taken >= s.taken && s'.vin == s.vin && s'.fetched.Keys <= s.fetched.Keys
    ensures Continues(w, s, [a], s')
  {
    hide Act;
    assert [a][..0] == [];
    assert Run(w, s, []) == s;
  }

  lemma Chained(w: Wiring, s: Pipeline, a: seq<Action>, m: Pipeline, b: seq<Action>, s': Pipeline)
    requires Continues(w, s, a, m) && Continues(w, m, b, s')
    ensures Continues(w, s, a + b, s')
  {
    RunConcat(w, s, a, b);
    hide Run;
    assert forall x :: x in a + b ==> x in a || x in b;
  }

  // ----- Pushing what has been fetched -----

  lemma {:induction false} PushAll(w: Wiring, s: Pipeline) returns (actions: seq<Action>, s': Pipeline)
    ensures Continues(w, s, actions, s') && s'.fetched == map[]
    ensures s'.taken == s.taken && s'.vinMails == s.vinMails
    decreases |s.fetched|
  {
    if s.fetched == map[] {
      actions, s' := [], s;
      Stays(w, s);
    } else {
      var t :| t in s.fetched;
      var m := PushStep(t, s);
      Pushed1(w, s, t);
      FewerKeys(s.fetched, t);
      OneAction(w, s, Push(t), m);
      hide Continues;
      hide PushStep;
      var rest;
      rest, s' := PushAll(w, m);
      actions := [Push(t)] + rest;
      Chained(w, s, [Push(t)], m, rest, s');
    }
  }

  lemma Pushed1(w: Wiring, s: Pipeline, t: Republisher)
    requires t in s.fetched
    ensures var m := PushStep(t, s);
            && Act(w, s, Push(t)) == m && m.fetched == s.fetched - {t}
            && m.ecu == s.ecu && m.taken == s.taken && m.vin == s.vin
            && m.vinMails == s.vinMails && m.locked == s.locked
  {
    hide Publish;
  }

  lemma FewerKeys(m: map<Republisher, Fetched>, t: Republisher)
    requires t in m
    ensures |m - {t}| < |m|
  {
    assert (m - {t}).Keys == m.Keys - {t};
    assert |(m - {t}).Keys| == |m.Keys| - 1;
  }

  // ----- The mutex -----

  lemma Release(w: Wiring, s: Pipeline) returns (s': Pipeline)
    requires s.fetched == map[]
    ensures Continues(w, s, [VinDone], s') && s' == s.(locked := false)
  {
    s' := s.(locked := false);
    OneAction(w, s, VinDone, s');
  }

  // ----- The bridge -----

  lemma {:induction false} BridgeAll(w: Wiring, s: Pipeline) returns (actions: seq<Action>, s': Pipeline)
    requires s.taken <= |s.ecu.board.sent| && s.fetched == map[] && !s.locked
    ensures Continues(w, s, actions, s') && s'.taken == |s'.ecu.board.sent|
    ensures s'.fetched == map[] && !s'.locked
    decreases |s.ecu.board.sent| - s.taken
  {
    if s.taken == |s.ecu.board.sent| {
      actions, s' := [], s;
      Stays(w, s);
    } else {
      var m := BridgeNext(s);
      Bridged1(w, s);
      OneAction(w, s, BridgeStep, m);
      hide Continues;
      hide BridgeNext;
      var rest;
      rest, s' := BridgeAll(w, m);
      actions := [BridgeStep] + rest;
      Chained(w, s, [BridgeStep], m, rest, s');
    }
  }

  lemma Bridged1(w: Wiring, s: Pipeline)
    requires s.taken < |s.ecu.board.sent|
    ensures var m := BridgeNext(s);
            && Act(w, s, BridgeStep) == m && m.taken == s.taken + 1
            && m.ecu == s.ecu && m.vin == s.vin && m.fetched == s.fetched && m.locked == s.locked
  {
    hide Bridged;
    hide Put;
  }

  // ----- The streams -----

  /** At rest up to the broker. */
  predicate Bridged0(s: Pipeline) {
    s.taken == |s.ecu.board.sent| && s.fetched == map[] && !s.locked
  }

  lemma PostSignals(lanes: Lanes, mail: Mail)
    ensures forall g :: Post(lanes, mail).Of(g).signals == lanes.Of(g).signals
  {
    hide Matches;
    hide Wildcard;
  }

  /** Publishing adds mails, but no signals. */
  lemma PublishSignals(lanes: Lanes, f: Field, vin: string, value: SignalValue)
    ensures forall g :: Publish(lanes, f, vin, value).Of(g).signals == lanes.Of(g).signals
  {
    hide Forward;
    hide Post;
    if Forward(f, vin, value) != [] {
      PostSignals(lanes, Forward(f, vin, value)[0]);
    }
  }

  lemma Delivered1(w: Wiring, s: Pipeline, f: Field)
    requires Bridged0(s) && s.lanes.Of(f).signals != []
    ensures var m := DeliverStep(f, s);
            && Act(w, s, Deliver(f)) == m && Bridged0(m) && m.ecu == s.ecu && m.taken == s.taken && m.vin == s.vin
            && |m.lanes.Of(f).signals| < |s.lanes.Of(f).signals|
            && forall g :: g != f ==> m.lanes.Of(g).signals == s.lanes.Of(g).signals
  {
    hide Publish;
    var lane := s.lanes.Of(f);
    PublishSignals(s.lanes.With(f, lane.(signals := lane.signals[1..])), f, s.vin, lane.signals[0]);
  }

  lemma {:induction false} DeliverAll(w: Wiring, s: Pipeline, f: Field) returns (actions: seq<Action>, s': Pipeline)
    requires Bridged0(s)
    ensures Continues(w, s, actions, s') && Bridged0(s') && s'.lanes.Of(f).signals == []
    ensures forall g :: g != f ==> s'.lanes.Of(g).signals == s.lanes.Of(g).signals
    decreases |s.lanes.Of(f).signals|
  {
    if s.lanes.Of(f).signals == [] {
      actions, s' := [], s;
      Stays(w, s);
    } else {
      var m := DeliverStep(f, s);
      Delivered1(w, s, f);
      OneAction(w, s, Deliver(f), m);
      hide Continues;
      hide DeliverStep;
      var rest;
      rest, s' := DeliverAll(w, m, f);
      actions := [Deliver(f)] + rest;
      Chained(w, s, [Deliver(f)], m, rest, s');
    }
  }

  // ----- The app -----

  predicate Streamed(s: Pipeline) {
    Bridged0(s) && forall f :: s.lanes.Of(f).signals == []
  }

  lemma Received1(w: Wiring, s: Pipeline, f: Field)
    requires Streamed(s) && s.lanes.Of(f).mails != []
    ensures var m := AppStep(f, s);
            && Act(w, s, AppReceives(f)) == m && Streamed(m) && m.ecu == s.ecu && m.taken == s.taken && m.vin == s.vin
            && |m.lanes.Of(f).mails| < |s.lanes.Of(f).mails|
            && (forall g :: g != f ==> m.lanes.Of(g).mails == s.lanes.Of(g).mails)
  {
    hide Show;
    hide LearnVin;
    hide Lanes.With;
    hide Lanes.Of;
    OtherLanes(s.lanes, f, Opened(f, s.lanes.Of(f)));
    assert AppStep(f, s).lanes == s.lanes.With(f, Opened(f, s.lanes.Of(f)));
  }

  lemma OtherLanes(lanes: Lanes, f: Field, lane: Lane)
    ensures lanes.With(f, lane).Of(f) == lane && forall g :: g != f ==> lanes.With(f, lane).Of(g) == lanes.Of(g)
  {
  }

  lemma {:induction false} ReceiveAll(w: Wiring, s: Pipeline, f: Field) returns (actions: seq<Action>, s': Pipeline)
    requires Streamed(s)
    ensures Continues(w, s, actions, s') && Streamed(s') && s'.lanes.Of(f).mails == []
    ensures forall g :: g != f ==> s'.lanes.Of(g).mails == s.lanes.Of(g).mails
    decreases |s.lanes.Of(f).mails|
  {
    if s.lanes.Of(f).mails == [] {
      actions, s' := [], s;
      Stays(w, s);
    } else {
      var m := AppStep(f, s);
      Received1(w, s, f);
      OneAction(w, s, AppReceives(f), m);
      hide Continues;
      hide AppStep;
      var rest;
      rest, s' := ReceiveAll(w, m, f);
      actions := [AppReceives(f)] + rest;
      Chained(w, s, [AppReceives(f)], m, rest, s');
    }
  }

  lemma {:induction false} ReceiveVins(w: Wiring, s: Pipeline) returns (actions: seq<Action>, s': Pipeline)
    requires Streamed(s)
    ensures Continues(w, s, actions, s') && Streamed(s') && s'.vinMails == [] && s'.lanes == s.lanes
    decreases |s.vinMails|
  {
    if s.vinMails == [] {
      actions, s' := [], s;
      Stays(w, s);
    } else {
      var m := Act(w, s, AppReceivesVin);
      OneAction(w, s, AppReceivesVin, m);
      hide Continues;
      hide Act;
      var rest;
      rest, s' := ReceiveVins(w, m);
      actions := [AppReceivesVin] + rest;
      Chained(w, s, [AppReceivesVin], m, rest, s');
    }
  }

  // ----- Everything arrives -----

  lemma DeliverFields(w: Wiring, s: Pipeline) returns (actions: seq<Action>, s': Pipeline)
    requires Bridged0(s)
    ensures Continues(w, s, actions, s') && Streamed(s')
  {
    hide Continues;
    hide Bridged0;
    var a1, s1 := DeliverAll(w, s, LockField);
    var a2, s2 := DeliverAll(w, s1, ModeField);
    var a3, s3 := DeliverAll(w, s2, SpeedField);
    var a4, s4 := DeliverAll(w, s3, LightField);
    Chained(w, s, a1, s1, a2, s2);
    Chained(w, s, a1 + a2, s2, a3, s3);
    Chained(w, s, a1 + a2 + a3, s3, a4, s4);
    actions, s' := a1 + a2 + a3 + a4, s4;
  }

  lemma ReceiveFields(w: Wiring, s: Pipeline) returns (actions: seq<Action>, s': Pipeline)
    requires Streamed(s)
    ensures Continues(w, s, actions, s') && AllArrived(s')
  {
    hide Continues;
    var a1, s1 := ReceiveAll(w, s, LockField);
    var a2, s2 := ReceiveAll(w, s1, ModeField);
    var a3, s3 := ReceiveAll(w, s2, SpeedField);
    var a4, s4 := ReceiveAll(w, s3, LightField);
    var a5, s5 := ReceiveVins(w, s4);
    Chained(w, s, a1, s1, a2, s2);
    Chained(w, s, a1 + a2, s2, a3, s3);
    Chained(w, s, a1 + a2 + a3, s3, a4, s4);
    Chained(w, s, a1 + a2 + a3 + a4, s4, a5, s5);
    actions, s' := a1 + a2 + a3 + a4 + a5, s5;
  }

  /** From every state, passing steps alone lead to one in which everything has arrived, and the ECU has not moved. */
  lemma AllArrives(w: Wiring, s: Pipeline) returns (actions: seq<Action>, s': Pipeline)
    requires s.taken <= |s.ecu.board.sent|
    ensures Continues(w, s, actions, s') && AllArrived(s')
  {
    hide Streamed;
    hide AllArrived;
    var a1, s1 := PushAll(w, s);
    var s2 := Release(w, s1);
    var a3, s3 := BridgeAll(w, s2);
    assert Bridged0(s3);
    hide Bridged0;
    var a4, s4 := DeliverFields(w, s3);
    var a5, s5 := ReceiveFields(w, s4);
    hide Continues;
    Chained(w, s, a1, s1, [VinDone], s2);
    Chained(w, s, a1 + [VinDone], s2, a3, s3);
    Chained(w, s, a1 + [VinDone] + a3, s3, a4, s4);
    Chained(w, s, a1 + [VinDone] + a3 + a4, s4, a5, s5);
    actions, s' := a1 + [VinDone] + a3 + a4 + a5, s5;
  }

  // ----- And the dashboard catches up -----

  /** No thread outside the mutex is about to push. */
  predicate NoFreeFetch(s: Pipeline) {
    forall t :: t in s.fetched ==> t == StreamThread
  }

  /** After an orderly run the dashboard can catch up with the ECU as it stands, in every field. */
  lemma DashboardCatchesUp(w: Wiring, vin: string, actions: seq<Action>) returns (more: seq<Action>)
    requires DotFree(vin) && (forall a :: a in actions ==> Orderly(a)) && NoFreeFetch(Run(w, Idle(vin), actions))
    ensures forall a :: a in more ==> Passes(a)
    ensures var s, s' := Run(w, Idle(vin), actions), Run(w, Idle(vin), actions + more);
            && s'.ecu == s.ecu && AllArrived(s')
            && forall f :: s'.lanes.Of(f).shown == Expected(f, s.ecu)
  {
    var s := Run(w, Idle(vin), actions);
    OrderlyUndisturbed(w, vin, actions);
    AlwaysLossless(w, vin, actions);
    assert s.taken <= |s.ecu.board.sent| by {
      hide Consistent;
      hide LaneOk;
    }
    var s';
    more, s' := AllArrives(w, s);
    RunConcat(w, Idle(vin), actions, more);
    hide Run;
    hide Lossless;
    hide Expected;
    hide Undisturbed;
    assert forall a :: a in actions + more ==> Orderly(a) by {
      assert forall a :: a in actions + more ==> a in actions || a in more;
    }
    OrderlyUndisturbed(w, vin, actions + more);
    DashboardMirrors(w, vin, actions + more);
  }
}
