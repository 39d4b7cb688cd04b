/** Runs in which a publisher's newer event overtakes its older, deferred one, after any number of events in order. */
module OvertakingRuns {
  import opened SomeIpDeferral

  lemma OneStep(publishers: set<nat>, run: seq<Step>, step: Step, s: System, s': System)
    requires After(publishers, run) == s && Enabled(publishers, s, step) && Next(publishers, s, step) == s'
    ensures After(publishers, run + [step]) == s'
  {
    assert (run + [step])[..|run|] == run;
  }

  // ----- Events in order -----

  const LISTENING := System(Shared(false, [], [0], []), Idle, map[], 0, [], [], [], [])

  /** One event more, raised and sent by the publisher. */
  function SentStraight(id: nat, s: System): System {
    var e := |s.fates|;
    s.(shared := s.shared.Transmit(Direct(e, 0)), raisers := s.raisers + [Publisher(id)],
    fates := s.fates + [Straight], direct := s.direct + [Delivery(e, [0])])
  }

  /** Client 0 has announced itself, and the publisher has raised and sent k events one after the other. */
  function InOrder(id: nat, k: nat): System {
    if k == 0 then LISTENING else SentStraight(id, InOrder(id, k - 1))
  }

  function InOrderRun(id: nat, k: nat): seq<Step> {
    if k == 0 then [Receive(0, false)] + [Finish]
    else InOrderRun(id, k - 1) + [Raise(Publisher(id))] + [SendDirect(Publisher(id))]
  }

  /** At rest, client 0 alone known. */
  predicate Calm(s: System) {
    && s.receiver.Idle? && s.inFlight == map[]
    && !s.shared.dispatching && s.shared.pending == [] && s.shared.clients == [0]
  }

  lemma Listening(publishers: set<nat>)
    ensures After(publishers, [Receive(0, false)] + [Finish]) == LISTENING
  {
    assert Insert([], 0) == [0];
    assert After(publishers, []) == START;
    hide After;
    hide Insert;
    OneStep(publishers, [], Receive(0, false), START, LISTENING.(receiver := HandlingNotification));
    assert [] + [Receive(0, false)] == [Receive(0, false)];
    OneStep(publishers, [Receive(0, false)], Finish, LISTENING.(receiver := HandlingNotification), LISTENING);
  }

  lemma StraightStep(publishers: set<nat>, id: nat, run: seq<Step>, s: System)
    requires id in publishers && Calm(s) && After(publishers, run) == s
    ensures After(publishers, run + [Raise(Publisher(id))] + [SendDirect(Publisher(id))]) == SentStraight(id, s)
  {
    var p, e := Publisher(id), |s.fates|;
    assert DirectTo(e, [0]) == [Direct(e, 0)];
    hide After;
    hide DirectTo;
    hide Insert;
    hide Erase;
    var raised := s.(raisers := s.raisers + [p], fates := s.fates + [Straight], inFlight := map[p := e]);
    OneStep(publishers, run, Raise(p), s, raised);
    assert raised.inFlight - {p} == map[];
    OneStep(publishers, run + [Raise(p)], SendDirect(p), raised, SentStraight(id, s));
  }

  lemma {:induction false} InOrderState(publishers: set<nat>, id: nat, k: nat)
    requires id in publishers
    ensures Calm(InOrder(id, k)) && After(publishers, InOrderRun(id, k)) == InOrder(id, k)
  {
    if k == 0 {
      Listening(publishers);
    } else {
      InOrderState(publishers, id, k - 1);
      hide After;
      StraightStep(publishers, id, InOrderRun(id, k - 1), InOrder(id, k - 1));
    }
  }

  // ----- One overtaken -----

  /** A request is handled, during which the publisher raises an event; it raises and sends another before the flush. */
  function SwapRun(id: nat): seq<Step> {
    [Receive(0, true)] + [BeginHandling] + [Raise(Publisher(id))] + [EndHandling] +
    [Raise(Publisher(id))] + [SendDirect(Publisher(id))] + [Respond] + [TakeSnapshot] + [FlushOne] + [Finish]
  }

  /** The request handled, the first event in the receive thread's hands. */
  function InHands(id: nat, s: System): System {
    s.(receiver := Answering(s.requests, 0, [|s.fates|]), requests := s.requests + 1,
    raisers := s.raisers + [Publisher(id)], fates := s.fates + [DeferredBy(s.requests)])
  }

  /** The second event sent. */
  function Ahead(id: nat, s: System): System {
    var e := |s.fates| + 1;
    InHands(id, s).(shared := s.shared.Transmit(Direct(e, 0)),
    raisers := s.raisers + [Publisher(id)] + [Publisher(id)],
    fates := s.fates + [DeferredBy(s.requests)] + [Straight], direct := s.direct + [Delivery(e, [0])])
  }

  /** The first one flushed after it. */
  function Swapped(id: nat, s: System): System {
    var e := |s.fates|;
    Ahead(id, s).(receiver := Idle,
    shared := s.shared.Transmit(Direct(e + 1, 0)).Transmit(Response(s.requests, 0)).Transmit(Flushed(e, 0)),
    batches := s.batches + [Batch(s.requests, 0, [e], [0])])
  }

  lemma SwapRequest(publishers: set<nat>, run: seq<Step>, s: System)
    requires Calm(s) && After(publishers, run) == s
    ensures After(publishers, run + [Receive(0, true)] + [BeginHandling]) ==
            s.(shared := s.shared.BeginDispatch(), receiver := Handling(s.requests, 0), requests := s.requests + 1)
  {
    assert Insert([0], 0) == [0];
    hide After;
    hide Insert;
    var entered := s.(receiver := Entered(s.requests, 0), requests := s.requests + 1);
    assert s.shared.Register(0) == s.shared;
    OneStep(publishers, run, Receive(0, true), s, entered);
    OneStep(publishers, run + [Receive(0, true)], BeginHandling, entered,
            entered.(shared := s.shared.BeginDispatch(), receiver := Handling(s.requests, 0)));
  }

  lemma SwapHandle(publishers: set<nat>, id: nat, run: seq<Step>, s: System)
    requires id in publishers && Calm(s)
    requires After(publishers, run) ==
             s.(shared := s.shared.BeginDispatch(), receiver := Handling(s.requests, 0), requests := s.requests + 1)
    ensures After(publishers, run + [Raise(Publisher(id))] + [EndHandling]) == InHands(id, s)
  {
    hide After;
    hide Insert;
    hide Erase;
    var p, e := Publisher(id), |s.fates|;
    var handling := After(publishers, run);
    var raised := handling.(shared := handling.shared.(pending := [e]), raisers := s.raisers + [p],
    fates := s.fates + [DeferredBy(s.requests)]);
    assert s.shared.pending + [e] == [e];
    OneStep(publishers, run, Raise(p), handling, raised);
    OneStep(publishers, run + [Raise(p)], EndHandling, raised, InHands(id, s));
  }

  lemma SwapSend(publishers: set<nat>, id: nat, run: seq<Step>, s: System)
    requires id in publishers && Calm(s) && After(publishers, run) == InHands(id, s)
    ensures After(publishers, run + [Raise(Publisher(id))] + [SendDirect(Publisher(id))]) == Ahead(id, s)
  {
    var p, e := Publisher(id), |s.fates| + 1;
    assert DirectTo(e, [0]) == [Direct(e, 0)];
    hide After;
    hide DirectTo;
    hide Insert;
    hide Erase;
    var before := InHands(id, s);
    var raised := before.(raisers := before.raisers + [p], fates := before.fates + [Straight], inFlight := map[p := e]);
    OneStep(publishers, run, Raise(p), before, raised);
    assert raised.inFlight - {p} == map[];
    OneStep(publishers, run + [Raise(p)], SendDirect(p), raised, Ahead(id, s));
  }

  lemma SwapFlush(publishers: set<nat>, id: nat, run: seq<Step>, s: System)
    requires Calm(s) && After(publishers, run) == Ahead(id, s)
    ensures After(publishers, run + [Respond] + [TakeSnapshot] + [FlushOne] + [Finish]) == Swapped(id, s)
  {
    var e := |s.fates|;
    assert FlushedTo(e, [0]) == [Flushed(e, 0)];
    assert Flush([e], [0]) == [Flushed(e, 0)];
    hide After;
    hide Flush;
    hide Insert;
    hide Erase;
    var ahead := Ahead(id, s);
    var answered := ahead.(shared := ahead.shared.Transmit(Response(s.requests, 0)),
    receiver := Answered(s.requests, 0, [e]));
    var flushing := answered.(receiver := Flushing([Flushed(e, 0)]),
    batches := s.batches + [Batch(s.requests, 0, [e], [0])]);
    var flushed := flushing.(shared := flushing.shared.Transmit(Flushed(e, 0)), receiver := Flushing([]));
    var r1 := run + [Respond];
    var r2 := r1 + [TakeSnapshot];
    OneStep(publishers, run, Respond, ahead, answered);
    OneStep(publishers, r1, TakeSnapshot, answered, flushing);
    OneStep(publishers, r2, FlushOne, flushing, flushed);
    OneStep(publishers, r2 + [FlushOne], Finish, flushed, Swapped(id, s));
  }

  /** From any state at rest with the client known, the run swaps its two events on the wire. */
  lemma SwapState(publishers: set<nat>, id: nat, run: seq<Step>, s: System)
    requires id in publishers && Calm(s) && After(publishers, run) == s
    ensures After(publishers, run + SwapRun(id)) == Swapped(id, s)
  {
    hide After;
    hide Swapped;
    hide Ahead;
    hide InHands;
    var p := Publisher(id);
    var r1 := run + [Receive(0, true)] + [BeginHandling];
    SwapRequest(publishers, run, s);
    var r2 := r1 + [Raise(p)] + [EndHandling];
    SwapHandle(publishers, id, r1, s);
    var r3 := r2 + [Raise(p)] + [SendDirect(p)];
    SwapSend(publishers, id, r2, s);
    SwapFlush(publishers, id, r3, s);
    assert run + SwapRun(id) == r3 + [Respond] + [TakeSnapshot] + [FlushOne] + [Finish];
  }

  /** k events in order, and then two the wrong way round. */
  lemma Overtaken(publishers: set<nat>, id: nat, k: nat)
    requires id in publishers
    ensures After(publishers, InOrderRun(id, k) + SwapRun(id)) == Swapped(id, InOrder(id, k))
  {
    hide After;
    InOrderState(publishers, id, k);
    SwapState(publishers, id, InOrderRun(id, k), InOrder(id, k));
  }
}
