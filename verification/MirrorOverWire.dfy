/** The two halves together: what the bridge hears over SOME/IP, and whether the dashboard can be trusted for it. */
module MirrorOverWire {
  import opened Ports
  import opened BodyEcu
  import opened EcuInvariants
  import opened EventTraces
  import opened SomeIpDeferral
  import opened WireContents
  import opened OvertakingRuns
  import opened EventOrder
  import opened CloudGateway
  import opened CompanionApp
  import opened StatePipeline
  import opened DashboardMirror

  // ----- What a client hears -----

  /** The events a client gets, in the order of the wire; event number e is the e-th the ECU has raised. */
  function Heard(wire: seq<Sent>, c: Client, sent: seq<Message>): seq<Message> {
    if wire == [] then []
    else
      var before, m := Heard(wire[..|wire| - 1], c, sent), wire[|wire| - 1];
      if !m.Response? && m.to == c && m.event < |sent| then before + [sent[m.event]] else before
  }

  /** A message that tells the client an event of the service. */
  predicate Carries(m: Sent, c: Client, sent: seq<Message>, service: uint16) {
    !m.Response? && m.to == c && m.event < |sent| && IsEvent(sent[m.event], service)
  }

  predicate IsEvent(e: Message, service: uint16) {
    e.service == service && e.id == EVENT
  }

  lemma {:induction false} HeardLast(wire: seq<Sent>, c: Client, sent: seq<Message>, service: uint16, i: nat)
    requires i < |wire| && Carries(wire[i], c, sent, service)
    requires forall j :: i < j < |wire| ==> !Carries(wire[j], c, sent, service)
    ensures var p := Payloads(Heard(wire, c, sent), service);
            p != [] && p[|p| - 1] == sent[wire[i].event].payload
  {
    var before, m := wire[..|wire| - 1], wire[|wire| - 1];
    HeardMore(wire, c, sent, service);
    if i < |before| {
      HeardLast(before, c, sent, service, i);
    }
    hide Payloads;
    hide Heard;
  }

  /** The payloads heard grow by those of the service. */
  lemma HeardMore(wire: seq<Sent>, c: Client, sent: seq<Message>, service: uint16)
    requires wire != []
    ensures var before, m := wire[..|wire| - 1], wire[|wire| - 1];
            Payloads(Heard(wire, c, sent), service) ==
            Payloads(Heard(before, c, sent), service) +
            if Carries(m, c, sent, service) then [sent[m.event].payload] else []
  {
    var h := Heard(wire[..|wire| - 1], c, sent);
    var m := wire[|wire| - 1];
    if !m.Response? && m.to == c && m.event < |sent| {
      assert (h + [sent[m.event]])[..|h|] == h;
    }
  }

  lemma {:induction false} HeardNothing(wire: seq<Sent>, c: Client, sent: seq<Message>, service: uint16)
    requires forall i :: 0 <= i < |wire| ==> !Carries(wire[i], c, sent, service)
    ensures Payloads(Heard(wire, c, sent), service) == []
  {
    if wire != [] {
      HeardMore(wire, c, sent, service);
      HeardNothing(wire[..|wire| - 1], c, sent, service);
      hide Payloads;
      hide Heard;
    }
  }

  /** The last event of a service, and its place among all. */
  lemma {:induction false} LastEvent(sent: seq<Message>, service: uint16) returns (n: nat)
    ensures Payloads(sent, service) == [] ==> forall i :: 0 <= i < |sent| ==> !IsEvent(sent[i], service)
    ensures var p := Payloads(sent, service);
            p != [] ==>
              && n < |sent| && IsEvent(sent[n], service) && sent[n].payload == p[|p| - 1]
              && forall i :: n < i < |sent| ==> !IsEvent(sent[i], service)
  {
    if sent == [] {
      n := 0;
    } else if IsEvent(sent[|sent| - 1], service) {
      n := |sent| - 1;
    } else {
      n := LastEvent(sent[..|sent| - 1], service);
      assert forall i :: 0 <= i < |sent| - 1 ==> sent[..|sent| - 1][i] == sent[i];
    }
  }

  // ----- Which fields can be trusted -----

  /** The events of the field are all raised by these threads. */
  ghost predicate RaisedOnlyBy(threads: set<Thread>, raisers: seq<Thread>, sent: seq<Message>, f: Field) {
    |raisers| == |sent| && forall e :: 0 <= e < |sent| && IsEvent(sent[e], ServiceOf(f)) ==> raisers[e] in threads
  }

  /** The SOME/IP system has carried the ECU's events and come to rest, the client having been known throughout. */
  ghost predicate Carried(s: System, e: Ecu, c: Client, f: Field, threads: set<Thread>) {
    && s.receiver.Idle? && s.inFlight == map[] && AlwaysClient(s, c) && |s.fates| == |e.board.sent|
    && RaisedOnlyBy(threads, s.raisers, e.board.sent, f)
  }

  /** What the dashboard shows of the field once all that the client has heard has come through. */
  function ShownFrom(f: Field, heard: seq<Message>): Option<Shown> {
    ShownOf(f, LastOf(ToldAll(f, Payloads(heard, ServiceOf(f)))))
  }

  /** A pipeline at rest to whose bridge these events are to come. */
  function Fed(vin: string, heard: seq<Message>): Pipeline {
    StatePipeline.Idle(vin).(ecu := POWERED.(board := POWERED.board.(sent := heard)))
  }

  ghost predicate HeadsFor(f: Field, p: Pipeline, shown: Option<Shown>) {
    p.taken <= |p.ecu.board.sent| && Heading(f, p) == shown
  }

  predicate Behind(actions: seq<Action>) {
    forall a :: a in actions ==> !a.EcuStep?
  }

  /**
   * In every run of the ECU, its events carried by any run of the SOME/IP threads and on by any undisturbed run of
   * the hops behind, the dashboard is heading for the field as it is.
   */
  ghost predicate Trusted(w: Wiring, f: Field, publishers: set<nat>, threads: set<Thread>) {
    forall run: seq<Input>, steps: seq<Step>, c: Client, vin: string, actions: seq<Action> ::
      Faithful(w, run, publishers, steps, c, f, threads, vin, actions)
  }

  ghost predicate Faithful(
    w: Wiring, run: seq<Input>, publishers: set<nat>, steps: seq<Step>, c: Client, f: Field, threads: set<Thread>,
    vin: string, actions: seq<Action>)
  {
    var e, s := BodyEcu.After(w, POWERED, run), SomeIpDeferral.After(publishers, steps);
    var start := Fed(vin, Heard(s.shared.wire, c, e.board.sent));
    Carried(s, e, c, f, threads) && Behind(actions) && UndisturbedFrom(w, start, actions) ==>
      HeadsFor(f, StatePipeline.Run(w, start, actions), Expected(f, e))
  }

  /** The client hears the newest event of the field last, if no publisher raises such events. */
  lemma HearsNewestLast(
    publishers: set<nat>, threads: set<Thread>, steps: seq<Step>, e: Ecu, c: Client, f: Field)
    requires NoPublisher(publishers, threads)
    requires Carried(SomeIpDeferral.After(publishers, steps), e, c, f, threads)
    ensures var heard := Heard(SomeIpDeferral.After(publishers, steps).shared.wire, c, e.board.sent);
            var p, q := Payloads(heard, ServiceOf(f)), Payloads(e.board.sent, ServiceOf(f));
            (p == [] <==> q == []) && (q != [] ==> p[|p| - 1] == q[|q| - 1])
  {
    hide SomeIpDeferral.After;
    hide Payloads;
    hide Heard;
    hide RaisedBy;
    hide Events;
    hide AlwaysClient;
    hide NonDecreasing;
    var s, sent, service := SomeIpDeferral.After(publishers, steps), e.board.sent, ServiceOf(f);
    var n := LastEvent(sent, service);
    if Payloads(sent, service) == [] {
      HeardNothing(s.shared.wire, c, sent, service);
    } else {
      AlwaysKept(publishers, threads, steps);
      KeptOrder(threads, s);
      OrderOnWire(threads, s.raisers, s.shared.wire);
      hide Kept;
      Arrived(publishers, steps, c, n);
      NeverTwice(publishers, steps);
      var i := NewestAt(threads, s, sent, c, service, n);
      HeardLast(s.shared.wire, c, sent, service, i);
    }
  }

  /** After the newest event of a service, the wire carries no other to the client. */
  lemma NewestAt(
    threads: set<Thread>, s: System, sent: seq<Message>, c: Client, service: uint16, n: nat) returns (i: nat)
    requires PairsOrdered(threads, s.raisers, s.shared.wire) && NoRepeat(s.shared.wire)
    requires |s.raisers| == |sent|
    requires forall e :: 0 <= e < |sent| && IsEvent(sent[e], service) ==> s.raisers[e] in threads
    requires n < |sent| && IsEvent(sent[n], service) && forall j :: n < j < |sent| ==> !IsEvent(sent[j], service)
    requires Flushed(n, c) in s.shared.wire || Direct(n, c) in s.shared.wire
    ensures i < |s.shared.wire| && Carries(s.shared.wire[i], c, sent, service) && s.shared.wire[i].event == n
    ensures forall j :: i < j < |s.shared.wire| ==> !Carries(s.shared.wire[j], c, sent, service)
  {
    var wire := s.shared.wire;
    var m := if Flushed(n, c) in wire then Flushed(n, c) else Direct(n, c);
    i :| 0 <= i < |wire| && wire[i] == m;
    assert EventOrder.Tells(threads, s.raisers, wire[i]);
    forall j | i < j < |wire|
      ensures !Carries(wire[j], c, sent, service)
    {
      assert !SameSent(wire[i], wire[j]);
      assert Carries(wire[j], c, sent, service) ==> EventOrder.Tells(threads, s.raisers, wire[j]);
    }
  }

  /** What was heard last tells the field as it is. */
  lemma NewestTells(w: Wiring, e: Ecu, f: Field, heard: seq<Message>)
    requires Consistent(w, e)
    requires var p, q := Payloads(heard, ServiceOf(f)), Payloads(e.board.sent, ServiceOf(f));
             (p == [] <==> q == []) && (q != [] ==> p[|p| - 1] == q[|q| - 1])
    ensures ShownFrom(f, heard) == Expected(f, e)
  {
    hide Consistent;
    hide Payloads;
    hide ShownOf;
    hide Told;
    hide Truth;
    var p := Payloads(heard, ServiceOf(f));
    if p == [] {
      assert ToldAll(f, p) == [];
      NothingShown(f);
    } else {
      LastPayload(w, e, f);
      PayloadTravels(e, f, p[|p| - 1]);
      hide ToldAll;
      LastTold(f, p);
    }
  }

  // ----- From what is heard to the dashboard -----

  lemma FedFlows(vin: string, heard: seq<Message>)
    ensures Flows(Fed(vin, heard))
  {
    hide Told;
    forall f: Field
      ensures LaneOk(f, Fed(vin, heard).lanes.Of(f), [])
    {
      assert Payloads([], ServiceOf(f)) == [];
      assert ToldAll(f, []) == [];
      NothingShown(f);
    }
  }

  lemma {:induction false} AlwaysFlows(w: Wiring, vin: string, heard: seq<Message>, actions: seq<Action>)
    requires Behind(actions) && UndisturbedFrom(w, Fed(vin, heard), actions)
    ensures var p := StatePipeline.Run(w, Fed(vin, heard), actions);
            Flows(p) && p.ecu.board.sent == heard
  {
    hide Act;
    hide Disturbs;
    hide Flows;
    if actions == [] {
      FedFlows(vin, heard);
    } else {
      var start, before, a := Fed(vin, heard), actions[..|actions| - 1], actions[|actions| - 1];
      assert forall i :: 0 <= i < |before| ==> before[i] == actions[i] && before[..i] == actions[..i];
      AlwaysFlows(w, vin, heard, before);
      StepFlows(w, StatePipeline.Run(w, start, before), a);
      SameEcu(w, StatePipeline.Run(w, start, before), a);
    }
  }

  /** Whatever events reach the bridge, in whatever order, the dashboard heads for what the last of each field shows. */
  lemma HeadingFromHeard(w: Wiring, f: Field, vin: string, heard: seq<Message>, actions: seq<Action>)
    requires Behind(actions) && UndisturbedFrom(w, Fed(vin, heard), actions)
    ensures HeadsFor(f, StatePipeline.Run(w, Fed(vin, heard), actions), ShownFrom(f, heard))
  {
    hide LaneOk;
    hide Heading;
    hide ShownOf;
    hide ToldAll;
    hide Payloads;
    hide StatePipeline.Run;
    hide Fed;
    AlwaysFlows(w, vin, heard, actions);
    HeadingStored(f, StatePipeline.Run(w, Fed(vin, heard), actions));
  }

  /** A field whose events no publisher raises is mirrored, however publishers interleave with everything else. */
  lemma TrustedIfNone(w: Wiring, f: Field, publishers: set<nat>, threads: set<SomeIpDeferral.Thread>)
    requires NoPublisher(publishers, threads)
    ensures Trusted(w, f, publishers, threads)
  {
    hide Carried;
    hide ShownFrom;
    hide Expected;
    hide Heard;
    hide BodyEcu.After;
    hide SomeIpDeferral.After;
    hide Payloads;
    hide HeadsFor;
    hide Fed;
    hide UndisturbedFrom;
    hide StatePipeline.Run;
    forall run: seq<Input>, steps: seq<Step>, c: Client, vin: string, actions: seq<Action>
      ensures Faithful(w, run, publishers, steps, c, f, threads, vin, actions)
    {
      var e, s := BodyEcu.After(w, POWERED, run), SomeIpDeferral.After(publishers, steps);
      var heard := Heard(s.shared.wire, c, e.board.sent);
      if Carried(s, e, c, f, threads) && Behind(actions) && UndisturbedFrom(w, Fed(vin, heard), actions) {
        AlwaysConsistent(w, run);
        HearsNewestLast(publishers, threads, steps, e, c, f);
        NewestTells(w, e, f, heard);
        HeadingFromHeard(w, f, vin, heard, actions);
      }
    }
  }

  // ----- A publisher's field is not to be trusted -----

  /** As many events as fates and raisers, all of the publisher, and client 0 always known. */
  predicate Alone(id: nat, s: System, n: nat) {
    && |s.fates| == |s.raisers| == n
    && (forall i :: 0 <= i < n ==> s.raisers[i] == Publisher(id))
    && (forall i :: 0 <= i < |s.batches| ==> s.batches[i].snapshot == [0])
    && (forall i :: 0 <= i < |s.direct| ==> s.direct[i].clients == [0])
  }

  lemma AloneStraight(id: nat, s: System, n: nat)
    requires Alone(id, s, n)
    ensures Alone(id, SentStraight(id, s), n + 1)
  {
  }

  lemma AloneSwapped(id: nat, s: System, n: nat)
    requires Alone(id, s, n)
    ensures Alone(id, Swapped(id, s), n + 2)
    ensures Swapped(id, s).shared.wire ==
            s.shared.wire + [Direct(n + 1, 0)] + [Sent.Response(s.requests, 0)] + [Flushed(n, 0)]
    ensures Swapped(id, s).receiver.Idle? && Swapped(id, s).inFlight == s.inFlight
  {
  }

  lemma {:induction false} InOrderHeard(id: nat, k: nat, sent: seq<Message>)
    requires k <= |sent|
    ensures Alone(id, InOrder(id, k), k) && InOrder(id, k).inFlight == map[]
    ensures Heard(InOrder(id, k).shared.wire, 0, sent) == sent[..k]
  {
    hide Alone;
    hide Heard;
    hide SentStraight;
    if k == 0 {
      NobodyYet(id, sent);
    } else {
      InOrderHeard(id, k - 1, sent);
      HeardStraight(id, InOrder(id, k - 1), k - 1, sent);
      assert sent[..k] == sent[..k - 1] + [sent[k - 1]];
    }
  }

  /** Sent straight, an event is heard after all before. */
  lemma HeardStraight(id: nat, s: System, n: nat, sent: seq<Message>)
    requires Alone(id, s, n) && n < |sent|
    ensures Alone(id, SentStraight(id, s), n + 1) && SentStraight(id, s).inFlight == s.inFlight
    ensures Heard(SentStraight(id, s).shared.wire, 0, sent) == Heard(s.shared.wire, 0, sent) + [sent[n]]
  {
    hide Heard;
    AloneStraight(id, s, n);
    AloneSize(id, s, n);
    hide Alone;
    HeardOne(s.shared.wire, Direct(n, 0), 0, sent);
  }

  lemma AloneSize(id: nat, s: System, n: nat)
    requires Alone(id, s, n)
    ensures |s.fates| == n
  {
  }

  lemma NobodyYet(id: nat, sent: seq<Message>)
    ensures Alone(id, LISTENING, 0) && LISTENING.inFlight == map[] && Heard(LISTENING.shared.wire, 0, sent) == []
  {
  }

  lemma HeardOne(wire: seq<Sent>, m: Sent, c: Client, sent: seq<Message>)
    ensures Heard(wire + [m], c, sent) ==
            if !m.Response? && m.to == c && m.event < |sent| then Heard(wire, c, sent) + [sent[m.event]]
            else Heard(wire, c, sent)
  {
    assert (wire + [m])[..|wire|] == wire;
  }

  /** What the client hears of events carried in the overtaking run: the last two the wrong way round. */
  lemma SwappedHeard(publishers: set<nat>, threads: set<SomeIpDeferral.Thread>, id: nat, e: Ecu, f: Field)
    requires Publisher(id) in threads && |e.board.sent| >= 2
    ensures var n, sent := |e.board.sent|, e.board.sent;
            var s := Swapped(id, InOrder(id, n - 2));
            && Carried(s, e, 0, f, threads)
            && Heard(s.shared.wire, 0, sent) == sent[..n - 2] + [sent[n - 1]] + [sent[n - 2]]
  {
    hide Heard;
    hide InOrder;
    hide Swapped;
    var sent := e.board.sent;
    var k := |sent| - 2;
    var before := InOrder(id, k);
    InOrderHeard(id, k, sent);
    AloneSwapped(id, before, k);
    AloneCarries(threads, id, Swapped(id, before), e, f);
    hide Alone;
    hide Carried;
    var w1 := before.shared.wire + [Direct(k + 1, 0)];
    var w2 := w1 + [Sent.Response(before.requests, 0)];
    HeardOne(before.shared.wire, Direct(k + 1, 0), 0, sent);
    HeardOne(w1, Sent.Response(before.requests, 0), 0, sent);
    HeardOne(w2, Flushed(k, 0), 0, sent);
  }

  lemma AloneCarries(threads: set<SomeIpDeferral.Thread>, id: nat, s: System, e: Ecu, f: Field)
    requires Publisher(id) in threads && Alone(id, s, |e.board.sent|) && s.receiver.Idle? && s.inFlight == map[]
    ensures Carried(s, e, 0, f, threads)
  {
  }

  /** The last two events are the field's, and show differently. */
  predicate LastTwoDiffer(f: Field, sent: seq<Message>) {
    var n := |sent|;
    && n >= 2 && IsEvent(sent[n - 2], ServiceOf(f)) && IsEvent(sent[n - 1], ServiceOf(f))
    && StatePipeline.Told(f, sent[n - 2].payload).Some? && StatePipeline.Told(f, sent[n - 1].payload).Some?
    && ShownOf(f, StatePipeline.Told(f, sent[n - 2].payload)) != ShownOf(f, StatePipeline.Told(f, sent[n - 1].payload))
  }

  lemma ShownLast(f: Field, heard: seq<Message>, e: Message)
    requires IsEvent(e, ServiceOf(f)) && StatePipeline.Told(f, e.payload).Some?
    ensures ShownFrom(f, heard + [e]) == ShownOf(f, StatePipeline.Told(f, e.payload))
  {
    hide StatePipeline.Told;
    hide ShownOf;
    var p := Payloads(heard, ServiceOf(f)) + [e.payload];
    assert (heard + [e])[..|heard|] == heard;
    assert Payloads(heard + [e], ServiceOf(f)) == p;
    LastTold(f, p);
    hide ToldAll;
  }

  /** The last two events swapped, the field shows otherwise. */
  lemma SwappedShows(f: Field, sent: seq<Message>)
    requires LastTwoDiffer(f, sent)
    ensures var n := |sent|;
            n >= 2 && ShownFrom(f, sent[..n - 2] + [sent[n - 1]] + [sent[n - 2]]) != ShownFrom(f, sent)
  {
    hide StatePipeline.Told;
    hide ShownOf;
    hide ShownFrom;
    var n := |sent|;
    ShownLast(f, sent[..n - 2] + [sent[n - 1]], sent[n - 2]);
    ShownLast(f, sent[..n - 1], sent[n - 1]);
    assert sent[..n - 1] + [sent[n - 1]] == sent;
  }

  lemma NotTrusted(
    w: Wiring, f: Field, publishers: set<nat>, threads: set<SomeIpDeferral.Thread>, id: nat, run: seq<Input>)
    requires id in publishers && Publisher(id) in threads
    requires LastTwoDiffer(f, BodyEcu.After(w, POWERED, run).board.sent)
    ensures !Trusted(w, f, publishers, threads)
  {
    hide BodyEcu.After;
    hide SomeIpDeferral.After;
    hide LastTwoDiffer;
    hide ShownFrom;
    hide Expected;
    hide Swapped;
    hide InOrder;
    hide Heard;
    hide Carried;
    hide Consistent;
    hide HeadsFor;
    hide Disturbs;
    hide Act;
    var e := BodyEcu.After(w, POWERED, run);
    var sent, n := e.board.sent, |e.board.sent|;
    SwappedShows(f, sent);
    var steps, heard := InOrderRun(id, n - 2) + SwapRun(id), sent[..n - 2] + [sent[n - 1]] + [sent[n - 2]];
    Overtaken(publishers, id, n - 2);
    SwappedHeard(publishers, threads, id, e, f);
    AlwaysConsistent(w, run);
    NewestTells(w, e, f, sent);
    HeadingFromHeard(w, f, "", heard, []);
    hide StatePipeline.Run;
    hide Fed;
    if Faithful(w, run, publishers, steps, 0, f, threads, "", []) {
      HeadsOnce(f, StatePipeline.Run(w, Fed("", heard), []), ShownFrom(f, heard), Expected(f, e));
    }
  }

  lemma HeadsOnce(f: Field, p: Pipeline, a: Option<Shown>, b: Option<Shown>)
    requires HeadsFor(f, p, a) && HeadsFor(f, p, b)
    ensures a == b
  {
    hide Heading;
  }
}
