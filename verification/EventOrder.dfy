/** In which order events reach the wire, and whose events keep the order they are raised in. */
module EventOrder {
  import opened SomeIpDeferral
  import opened WireContents
  import opened OvertakingRuns

  /** The events on the wire, without the responses. */
  function Events(wire: seq<Sent>): seq<nat> {
    if wire == [] then []
    else
      var m := wire[|wire| - 1];
      Events(wire[..|wire| - 1]) + if m.Response? then [] else [m.event]
  }

  ghost predicate NonDecreasing(s: seq<nat>) {
    forall i, j :: 0 <= i < j < |s| ==> s[i] <= s[j]
  }

  /** Whether one of the threads has raised the event. */
  predicate By(threads: set<Thread>, raisers: seq<Thread>, e: nat) {
    e < |raisers| && raisers[e] in threads
  }

  /** Of some events, those the threads have raised. */
  function RaisedBy(threads: set<Thread>, raisers: seq<Thread>, events: seq<nat>): seq<nat> {
    if events == [] then []
    else
      var e := events[|events| - 1];
      RaisedBy(threads, raisers, events[..|events| - 1]) + if By(threads, raisers, e) then [e] else []
  }

  /** None of the threads' events reaches the wire after a younger one of theirs, in any run. */
  ghost predicate KeptInOrder(publishers: set<nat>, threads: set<Thread>) {
    forall run: seq<Step> ::
      var s := After(publishers, run);
      NonDecreasing(RaisedBy(threads, s.raisers, Events(s.shared.wire)))
  }

  /** No event reaches the wire after a younger one, in any run. */
  ghost predicate WireInOrder(publishers: set<nat>) {
    forall run: seq<Step> :: NonDecreasing(Events(After(publishers, run).shared.wire))
  }

  // ----- Sequences of events -----

  lemma {:induction false} EventsAppend(a: seq<Sent>, b: seq<Sent>)
    ensures Events(a + b) == Events(a) + Events(b)
  {
    if b == [] {
      assert a + b == a;
    } else {
      EventsAppend(a, b[..|b| - 1]);
      assert (a + b)[..|a + b| - 1] == a + b[..|b| - 1];
    }
  }

  lemma EventsOne(m: Sent)
    ensures Events([m]) == if m.Response? then [] else [m.event]
  {
    assert [m][..0] == [];
  }

  lemma {:induction false} EventsDirect(e: nat, clients: seq<Client>)
    ensures forall x :: x in Events(DirectTo(e, clients)) ==> x == e
  {
    if clients != [] {
      EventsDirect(e, clients[..|clients| - 1]);
      assert DirectTo(e, clients)[..|clients| - 1] == DirectTo(e, clients[..|clients| - 1]);
    }
  }

  lemma {:induction false} EventsFlushed(e: nat, clients: seq<Client>)
    ensures forall x :: x in Events(FlushedTo(e, clients)) ==> x == e
  {
    if clients != [] {
      EventsFlushed(e, clients[..|clients| - 1]);
      assert FlushedTo(e, clients)[..|clients| - 1] == FlushedTo(e, clients[..|clients| - 1]);
    }
  }

  lemma {:induction false} RaisedConcat(threads: set<Thread>, raisers: seq<Thread>, a: seq<nat>, b: seq<nat>)
    ensures RaisedBy(threads, raisers, a + b) == RaisedBy(threads, raisers, a) + RaisedBy(threads, raisers, b)
  {
    hide By;
    if b == [] {
      assert a + b == a;
    } else {
      RaisedConcat(threads, raisers, a, b[..|b| - 1]);
      assert (a + b)[..|a + b| - 1] == a + b[..|b| - 1];
    }
  }

  lemma {:induction false} RaisedMembers(threads: set<Thread>, raisers: seq<Thread>, events: seq<nat>)
    ensures forall e :: e in RaisedBy(threads, raisers, events) <==> e in events && By(threads, raisers, e)
  {
    hide By;
    if events != [] {
      RaisedMembers(threads, raisers, events[..|events| - 1]);
      assert events == events[..|events| - 1] + [events[|events| - 1]];
    }
  }

  lemma Shorter(events: seq<nat>, before: seq<nat>)
    requires events != [] && before == events[..|events| - 1]
    ensures events[|events| - 1] in events && forall e :: e in before ==> e in events
  {
  }

  /** Who raised an event does not change when more are raised. */
  lemma {:induction false} RaisedStable(threads: set<Thread>, raisers: seq<Thread>, t: Thread, events: seq<nat>)
    requires forall e :: e in events ==> e < |raisers|
    ensures RaisedBy(threads, raisers + [t], events) == RaisedBy(threads, raisers, events)
  {
    if events != [] {
      var before := events[..|events| - 1];
      Shorter(events, before);
      RaisedStable(threads, raisers, t, before);
    }
  }

  lemma JoinOrdered(a: seq<nat>, b: seq<nat>)
    requires NonDecreasing(a) && NonDecreasing(b) && forall x, y :: x in a && y in b ==> x <= y
    ensures NonDecreasing(a + b)
  {
    var s := a + b;
    forall i, j | 0 <= i < j < |s|
      ensures s[i] <= s[j]
    {
      if i < |a| <= j {
        assert a[i] in a && b[j - |a|] in b;
      }
    }
  }

  lemma Constant(s: seq<nat>, e: nat)
    requires forall x :: x in s ==> x == e
    ensures NonDecreasing(s)
  {
    assert forall i :: 0 <= i < |s| ==> s[i] in s;
  }

  lemma SplitOrdered(a: seq<nat>, b: seq<nat>)
    requires NonDecreasing(a + b)
    ensures NonDecreasing(a) && NonDecreasing(b) && forall x, y :: x in a && y in b ==> x <= y
  {
    var s := a + b;
    forall i, j | 0 <= i < j < |b|
      ensures b[i] <= b[j]
    {
      assert s[|a| + i] <= s[|a| + j];
    }
    forall x, y | x in a && y in b
      ensures x <= y
    {
      var i :| 0 <= i < |a| && a[i] == x;
      var j :| 0 <= j < |b| && b[j] == y;
      assert s[i] <= s[|a| + j];
    }
    forall i, j | 0 <= i < j < |a|
      ensures a[i] <= a[j]
    {
      assert s[i] <= s[j];
    }
  }

  // ----- What is still to come -----

  function OwnInFlight(s: System): seq<nat> {
    if ReceiveThread in s.inFlight then [s.inFlight[ReceiveThread]] else []
  }

  /** What the receive thread or the deferred line is still to send, oldest first. */
  function Outstanding(s: System): seq<nat> {
    Events(Todo(s.receiver)) + InHand(s.receiver) + s.shared.pending + OwnInFlight(s)
  }

  /** In order, as far as the threads have raised it, and raised already. */
  ghost predicate Lined(threads: set<Thread>, raisers: seq<Thread>, sent: seq<nat>, coming: seq<nat>) {
    && NonDecreasing(RaisedBy(threads, raisers, sent + coming))
    && forall e :: e in sent + coming ==> e < |raisers|
  }

  /** Every thread's event in flight is its own. */
  ghost predicate Kept(threads: set<Thread>, s: System) {
    && InPhase(s)
    && |s.raisers| == |s.fates|
    && (forall t :: t in s.inFlight ==> s.inFlight[t] < |s.raisers| && s.raisers[s.inFlight[t]] == t)
    && Lined(threads, s.raisers, Events(s.shared.wire), Outstanding(s))
  }

  /** Replacing what is to come by copies of it, in order, keeps the line. */
  lemma Replaced(threads: set<Thread>, raisers: seq<Thread>, a: seq<nat>, b: seq<nat>, b': seq<nat>)
    requires Lined(threads, raisers, a, b)
    requires NonDecreasing(RaisedBy(threads, raisers, b')) && forall e :: e in b' ==> e in b
    ensures Lined(threads, raisers, a, b')
  {
    hide By;
    RaisedConcat(threads, raisers, a, b);
    RaisedConcat(threads, raisers, a, b');
    RaisedMembers(threads, raisers, b);
    RaisedMembers(threads, raisers, b');
    hide RaisedBy;
    SplitOrdered(RaisedBy(threads, raisers, a), RaisedBy(threads, raisers, b));
    JoinOrdered(RaisedBy(threads, raisers, a), RaisedBy(threads, raisers, b'));
    assert forall e :: e in a || e in b ==> e in a + b;
    assert forall e :: e in a + b' ==> e in a || e in b';
    hide NonDecreasing;
  }

  /** Sending each event to many clients repeats it, but keeps the order. */
  lemma {:induction false} FlushOrdered(
    threads: set<Thread>, raisers: seq<Thread>, events: seq<nat>, clients: seq<Client>)
    requires NonDecreasing(RaisedBy(threads, raisers, events))
    ensures NonDecreasing(RaisedBy(threads, raisers, Events(Flush(events, clients))))
    ensures forall x :: x in Events(Flush(events, clients)) ==> x in events
  {
    hide By;
    if events != [] {
      var e, rest := events[0], events[1..];
      var first, others := Events(FlushedTo(e, clients)), Events(Flush(rest, clients));
      assert events == [e] + rest;
      RaisedConcat(threads, raisers, [e], rest);
      hide RaisedBy;
      SplitOrdered(RaisedBy(threads, raisers, [e]), RaisedBy(threads, raisers, rest));
      FlushOrdered(threads, raisers, rest, clients);
      EventsAppend(FlushedTo(e, clients), Flush(rest, clients));
      EventsFlushed(e, clients);
      RaisedConcat(threads, raisers, first, others);
      RaisedMembers(threads, raisers, first);
      RaisedMembers(threads, raisers, others);
      RaisedMembers(threads, raisers, [e]);
      RaisedMembers(threads, raisers, rest);
      Constant(RaisedBy(threads, raisers, first), e);
      assert e in [e];
      JoinOrdered(RaisedBy(threads, raisers, first), RaisedBy(threads, raisers, others));
      hide NonDecreasing;
    }
  }

  // ----- Every step keeps the line -----

  /** An event just raised joins at the end. */
  lemma Raised(threads: set<Thread>, raisers: seq<Thread>, t: Thread, sent: seq<nat>, coming: seq<nat>)
    requires Lined(threads, raisers, sent, coming)
    ensures Lined(threads, raisers + [t], sent, coming)
    ensures Lined(threads, raisers + [t], sent, coming + [|raisers|])
  {
    var all, e := sent + coming, |raisers|;
    RaisedStable(threads, raisers, t, all);
    RaisedConcat(threads, raisers + [t], all, [e]);
    RaisedMembers(threads, raisers, all);
    RaisedMembers(threads, raisers + [t], [e]);
    Constant(RaisedBy(threads, raisers + [t], [e]), e);
    assert sent + (coming + [e]) == all + [e];
    hide RaisedBy;
    JoinOrdered(RaisedBy(threads, raisers, all), RaisedBy(threads, raisers + [t], [e]));
    assert forall x :: x in all + [e] ==> x in all || x == e;
    hide NonDecreasing;
  }

  lemma RaiseComing(publishers: set<nat>, s: System, t: Thread)
    requires Enabled(publishers, s, Raise(t)) && InPhase(s)
    ensures var s' := Next(publishers, s, Raise(t));
            && Outstanding(s') ==
               (if s.shared.dispatching || t == ReceiveThread then Outstanding(s) + [|s.fates|] else Outstanding(s))
            && s'.shared.wire == s.shared.wire && s'.raisers == s.raisers + [t] && |s'.fates| == |s.fates| + 1
  {
    hide Events;
  }

  lemma RaiseKept(publishers: set<nat>, threads: set<Thread>, s: System, t: Thread)
    requires Enabled(publishers, s, Raise(t)) && Kept(threads, s)
    ensures Kept(threads, Next(publishers, s, Raise(t)))
  {
    hide Lined;
    hide Outstanding;
    hide Events;
    StepInPhase(publishers, s, Raise(t));
    RaiseComing(publishers, s, t);
    Raised(threads, s.raisers, t, Events(s.shared.wire), Outstanding(s));
    hide InPhase;
  }

  lemma SomeMember(s: seq<nat>)
    ensures s == [] || s[0] in s
  {
  }

  /** A publisher's event slips in before what is to come; its order is not asked for. */
  lemma Slipped(threads: set<Thread>, raisers: seq<Thread>, a: seq<nat>, more: seq<nat>, b: seq<nat>, e: nat)
    requires Lined(threads, raisers, a, b) && e < |raisers| && raisers[e] !in threads
    requires forall x :: x in more ==> x == e
    ensures Lined(threads, raisers, a + more, b)
  {
    RaisedMembers(threads, raisers, more);
    hide RaisedBy;
    SomeMember(RaisedBy(threads, raisers, more));
    RaisedConcat(threads, raisers, a, b);
    RaisedConcat(threads, raisers, a + more, b);
    RaisedConcat(threads, raisers, a, more);
    assert RaisedBy(threads, raisers, a + more + b) == RaisedBy(threads, raisers, a + b);
    hide NonDecreasing;
    assert forall x :: x in a + more + b ==> x in a + b || x == e;
  }

  lemma SendComing(publishers: set<nat>, s: System, t: Thread)
    requires t in s.inFlight && InPhase(s)
    ensures var s' := Next(publishers, s, SendDirect(t));
            && (t == ReceiveThread ==> Outstanding(s) == [s.inFlight[t]] && Outstanding(s') == [])
            && (t != ReceiveThread ==> Outstanding(s') == Outstanding(s))
            && s'.shared.wire == s.shared.wire + DirectTo(s.inFlight[t], s.shared.clients)
            && s'.raisers == s.raisers && s'.fates == s.fates
  {
    assert Events([]) == [];
    hide Events;
  }

  lemma SendKept(publishers: set<nat>, threads: set<Thread>, s: System, t: Thread)
    requires t in s.inFlight && Kept(threads, s) && (t != ReceiveThread ==> t !in threads)
    ensures Kept(threads, Next(publishers, s, SendDirect(t)))
  {
    hide Lined;
    hide Outstanding;
    hide Events;
    hide RaisedBy;
    hide By;
    hide DirectTo;
    var e, clients := s.inFlight[t], s.shared.clients;
    var before, coming, sent := Events(s.shared.wire), Outstanding(s), Events(DirectTo(e, clients));
    StepInPhase(publishers, s, SendDirect(t));
    SendComing(publishers, s, t);
    EventsAppend(s.shared.wire, DirectTo(e, clients));
    EventsDirect(e, clients);
    if t == ReceiveThread {
      RaisedMembers(threads, s.raisers, sent);
      Constant(RaisedBy(threads, s.raisers, sent), e);
      assert e in coming;
      Replaced(threads, s.raisers, before, coming, sent);
      NothingComing(threads, s.raisers, before, sent);
    } else {
      Slipped(threads, s.raisers, before, sent, coming, e);
    }
    hide InPhase;
  }

  lemma NothingComing(threads: set<Thread>, raisers: seq<Thread>, a: seq<nat>, b: seq<nat>)
    requires Lined(threads, raisers, a, b)
    ensures Lined(threads, raisers, a + b, [])
  {
    assert a + b + [] == a + b;
    hide RaisedBy;
    hide NonDecreasing;
  }

  lemma SnapshotComing(publishers: set<nat>, s: System)
    requires s.receiver.Answered? && InPhase(s)
    ensures var s' := Next(publishers, s, TakeSnapshot);
            && Outstanding(s) == s.receiver.deferred
            && Outstanding(s') == Events(Flush(s.receiver.deferred, s.shared.clients))
            && s'.shared.wire == s.shared.wire && s'.raisers == s.raisers && s'.fates == s.fates
  {
    assert Events([]) == [];
    hide Events;
    hide Flush;
  }

  lemma SnapshotKept(publishers: set<nat>, threads: set<Thread>, s: System)
    requires s.receiver.Answered? && Kept(threads, s)
    ensures Kept(threads, Next(publishers, s, TakeSnapshot))
  {
    hide Events;
    hide Outstanding;
    hide RaisedBy;
    hide NonDecreasing;
    hide Flush;
    var before, coming := Events(s.shared.wire), s.receiver.deferred;
    StepInPhase(publishers, s, TakeSnapshot);
    SnapshotComing(publishers, s);
    RaisedConcat(threads, s.raisers, before, coming);
    SplitOrdered(RaisedBy(threads, s.raisers, before), RaisedBy(threads, s.raisers, coming));
    FlushOrdered(threads, s.raisers, coming, s.shared.clients);
    Replaced(threads, s.raisers, before, coming, Events(Flush(coming, s.shared.clients)));
    hide Lined;
    hide InPhase;
  }

  lemma FlushComing(publishers: set<nat>, s: System)
    requires Enabled(publishers, s, FlushOne) && InPhase(s)
    ensures var s', m := Next(publishers, s, FlushOne), s.receiver.todo[0];
            && Outstanding(s) == Events([m] + s.receiver.todo[1..]) && Outstanding(s') == Events(s.receiver.todo[1..])
            && s'.shared.wire == s.shared.wire + [m]
            && s'.raisers == s.raisers && s'.fates == s.fates && s'.inFlight == s.inFlight
  {
    assert Events([]) == [];
    hide Events;
    assert s.receiver.todo == [s.receiver.todo[0]] + s.receiver.todo[1..];
  }

  lemma FlushKept(publishers: set<nat>, threads: set<Thread>, s: System)
    requires Enabled(publishers, s, FlushOne) && Kept(threads, s)
    ensures Kept(threads, Next(publishers, s, FlushOne))
  {
    hide Events;
    hide Outstanding;
    hide RaisedBy;
    hide NonDecreasing;
    var m, more := s.receiver.todo[0], s.receiver.todo[1..];
    StepInPhase(publishers, s, FlushOne);
    FlushComing(publishers, s);
    EventsAppend([m], more);
    EventsAppend(s.shared.wire, [m]);
    assert Events(s.shared.wire) + (Events([m]) + Events(more)) == Events(s.shared.wire) + Events([m]) + Events(more);
    hide Next;
    hide InPhase;
  }

  lemma StepKept(publishers: set<nat>, threads: set<Thread>, s: System, step: Step)
    requires Enabled(publishers, s, step) && Kept(threads, s)
    requires step.SendDirect? && step.t != ReceiveThread ==> step.t !in threads
    ensures Kept(threads, Next(publishers, s, step))
  {
    match step {
      case Raise(t) => RaiseKept(publishers, threads, s, t);
      case SendDirect(t) => SendKept(publishers, threads, s, t);
      case TakeSnapshot => SnapshotKept(publishers, threads, s);
      case FlushOne => FlushKept(publishers, threads, s);
      case _ =>
        hide Lined;
        hide Events;
        hide Outstanding;
        StepInPhase(publishers, s, step);
        OtherComing(publishers, s, step);
        hide InPhase;
    }
  }

  /** The other steps leave the line alone. */
  lemma OtherComing(publishers: set<nat>, s: System, step: Step)
    requires Enabled(publishers, s, step) && InPhase(s)
    requires !step.Raise? && !step.SendDirect? && !step.TakeSnapshot? && !step.FlushOne?
    ensures var s' := Next(publishers, s, step);
            && Events(s'.shared.wire) == Events(s.shared.wire) && Outstanding(s') == Outstanding(s)
            && s'.raisers == s.raisers && s'.fates == s.fates && s'.inFlight == s.inFlight
  {
    assert Events([]) == [];
    hide Events;
    hide Insert;
    hide Erase;
    if step.Respond? {
      ResponseSent(s.shared.wire, Response(s.receiver.request, s.receiver.sender));
    }
  }

  /** A response tells no event. */
  lemma ResponseSent(wire: seq<Sent>, m: Sent)
    requires m.Response?
    ensures Events(wire + [m]) == Events(wire)
  {
    EventsAppend(wire, [m]);
    EventsOne(m);
    hide Events;
    assert Events(wire) + [] == Events(wire);
  }

  // ----- Over all runs -----

  lemma StartKept(threads: set<Thread>)
    ensures Kept(threads, START)
  {
    assert Events([]) == [] && RaisedBy(threads, [], []) == [];
  }

  /** No publisher is among the threads. */
  predicate NoPublisher(publishers: set<nat>, threads: set<Thread>) {
    forall id :: id in publishers ==> Publisher(id) !in threads
  }

  /** Only publishers that exist have events in flight. */
  ghost predicate Known(publishers: set<nat>, s: System) {
    && (forall t :: t in s.inFlight ==> t == ReceiveThread || t.id in publishers)
    && (forall t :: t in s.raisers ==> t == ReceiveThread || t.id in publishers)
  }

  lemma StepKnown(publishers: set<nat>, s: System, step: Step)
    requires Enabled(publishers, s, step) && Known(publishers, s)
    ensures Known(publishers, Next(publishers, s, step))
  {
  }

  lemma {:induction false} AlwaysKept(publishers: set<nat>, threads: set<Thread>, run: seq<Step>)
    requires NoPublisher(publishers, threads)
    ensures Kept(threads, After(publishers, run)) && Known(publishers, After(publishers, run))
  {
    hide Next;
    hide Kept;
    if run == [] {
      StartKept(threads);
    } else {
      var s, step := After(publishers, run[..|run| - 1]), run[|run| - 1];
      AlwaysKept(publishers, threads, run[..|run| - 1]);
      if Enabled(publishers, s, step) {
        StepKept(publishers, threads, s, step);
        StepKnown(publishers, s, step);
      }
    }
  }

  lemma KeptOrder(threads: set<Thread>, s: System)
    requires Kept(threads, s)
    ensures NonDecreasing(RaisedBy(threads, s.raisers, Events(s.shared.wire)))
    ensures forall e :: e in Events(s.shared.wire) ==> e < |s.raisers|
  {
    var sent, coming := Events(s.shared.wire), Outstanding(s);
    hide Events;
    hide Outstanding;
    RaisedConcat(threads, s.raisers, sent, coming);
    SplitOrdered(RaisedBy(threads, s.raisers, sent), RaisedBy(threads, s.raisers, coming));
    assert forall e :: e in sent ==> e in sent + coming;
    hide NonDecreasing;
    hide RaisedBy;
  }

  // ----- A publisher overtakes itself -----

  function Overtaking(id: nat): seq<Step> {
    InOrderRun(id, 0) + SwapRun(id)
  }

  /** A publisher's second event is sent before its first one, which is flushed later. */
  lemma EventOvertaken(publishers: set<nat>, id: nat)
    requires id in publishers
    ensures var s := After(publishers, Overtaking(id));
            && s.shared.wire == [Direct(1, 0), Response(0, 0), Flushed(0, 0)]
            && s.raisers == [Publisher(id), Publisher(id)]
            && s.receiver.Idle? && s.inFlight == map[] && AlwaysClient(s, 0)
  {
    hide After;
    hide InOrderRun;
    hide SwapRun;
    Overtaken(publishers, id, 0);
  }

  lemma OvertakenEvents()
    ensures Events([Direct(1, 0), Response(0, 0), Flushed(0, 0)]) == [1, 0]
    ensures forall threads: set<Thread>, t :: t in threads ==> RaisedBy(threads, [t, t], [1, 0]) == [1, 0]
    ensures !NonDecreasing([1, 0])
  {
    EventsAppend([Direct(1, 0), Response(0, 0)], [Flushed(0, 0)]);
    EventsAppend([Direct(1, 0)], [Response(0, 0)]);
    EventsOne(Direct(1, 0));
    EventsOne(Response(0, 0));
    EventsOne(Flushed(0, 0));
    assert [Direct(1, 0), Response(0, 0), Flushed(0, 0)] == [Direct(1, 0)] + [Response(0, 0)] + [Flushed(0, 0)];
    hide Events;
    assert [1, 0][0] > [1, 0][1];
    forall threads: set<Thread>, t | t in threads
      ensures RaisedBy(threads, [t, t], [1, 0]) == [1, 0]
    {
      assert [1, 0][..1] == [1] && [1][..0] == [];
      assert RaisedBy(threads, [t, t], []) == [];
      assert RaisedBy(threads, [t, t], [1]) == [1];
    }
  }

  // ----- Exactly whose events keep their order -----

  /**
   * The events some threads raise reach the wire in the order they are raised, in every run, iff no publisher is
   * among them: the receive thread's events keep their order whatever publishers do, a publisher's do not even
   * among themselves.
   */
  lemma ThreadOrder(publishers: set<nat>, threads: set<Thread>)
    ensures KeptInOrder(publishers, threads) <==> NoPublisher(publishers, threads)
  {
    hide After;
    if NoPublisher(publishers, threads) {
      forall run: seq<Step>
        ensures var s := After(publishers, run);
                NonDecreasing(RaisedBy(threads, s.raisers, Events(s.shared.wire)))
      {
        AlwaysKept(publishers, threads, run);
        KeptOrder(threads, After(publishers, run));
      }
    } else {
      var id :| id in publishers && Publisher(id) in threads;
      EventOvertaken(publishers, id);
      OvertakenEvents();
      var s := After(publishers, Overtaking(id));
      assert !NonDecreasing(RaisedBy(threads, s.raisers, Events(s.shared.wire)));
    }
  }

  lemma {:induction false} AllRaised(raisers: seq<Thread>, events: seq<nat>)
    requires forall t :: t in raisers ==> t == ReceiveThread
    requires forall e :: e in events ==> e < |raisers|
    ensures RaisedBy({ReceiveThread}, raisers, events) == events
  {
    if events != [] {
      var before := events[..|events| - 1];
      Shorter(events, before);
      assert raisers[events[|events| - 1]] in raisers;
      AllRaised(raisers, before);
    }
  }

  /** Events reach the wire in the order they are raised, in every run, iff only the receive thread raises any. */
  lemma WireOrder(publishers: set<nat>)
    ensures WireInOrder(publishers) <==> publishers == {}
  {
    hide After;
    if publishers == {} {
      forall run: seq<Step>
        ensures NonDecreasing(Events(After(publishers, run).shared.wire))
      {
        var s := After(publishers, run);
        AlwaysKept(publishers, {ReceiveThread}, run);
        KeptOrder({ReceiveThread}, s);
        AllRaised(s.raisers, Events(s.shared.wire));
      }
    } else {
      var id :| id in publishers;
      EventOvertaken(publishers, id);
      OvertakenEvents();
      assert !NonDecreasing(Events(After(publishers, Overtaking(id)).shared.wire));
    }
  }

  // ----- What a client sees last -----

  /** A message with one of the threads' events. */
  predicate Tells(threads: set<Thread>, raisers: seq<Thread>, m: Sent) {
    !m.Response? && By(threads, raisers, m.event)
  }

  ghost predicate PairsOrdered(threads: set<Thread>, raisers: seq<Thread>, wire: seq<Sent>) {
    forall i, j :: 0 <= i < j < |wire| && Tells(threads, raisers, wire[i]) && Tells(threads, raisers, wire[j]) ==>
                     wire[i].event <= wire[j].event
  }

  lemma OneMorePair(threads: set<Thread>, raisers: seq<Thread>, before: seq<Sent>, m: Sent)
    requires PairsOrdered(threads, raisers, before)
    requires Tells(threads, raisers, m) ==>
               forall x :: x in before && Tells(threads, raisers, x) ==> x.event <= m.event
    ensures PairsOrdered(threads, raisers, before + [m])
  {
    assert forall i :: 0 <= i < |before| ==> before[i] in before;
    hide By;
  }

  /** One more message on the wire: its event, if the threads have raised it, is the newest of theirs. */
  lemma ToldRaised(threads: set<Thread>, raisers: seq<Thread>, before: seq<Sent>, m: Sent)
    requires NonDecreasing(RaisedBy(threads, raisers, Events(before + [m])))
    ensures NonDecreasing(RaisedBy(threads, raisers, Events(before)))
    ensures forall e :: e in RaisedBy(threads, raisers, Events(before)) ==>
                          e in RaisedBy(threads, raisers, Events(before + [m]))
    ensures Tells(threads, raisers, m) ==> m.event in RaisedBy(threads, raisers, Events(before + [m]))
    ensures Tells(threads, raisers, m) ==>
              forall e :: e in RaisedBy(threads, raisers, Events(before)) ==> e <= m.event
  {
    hide By;
    hide RaisedBy;
    hide Events;
    hide NonDecreasing;
    EventsAppend(before, [m]);
    EventsOne(m);
    RaisedConcat(threads, raisers, Events(before), Events([m]));
    RaisedMembers(threads, raisers, Events([m]));
    SplitOrdered(RaisedBy(threads, raisers, Events(before)), RaisedBy(threads, raisers, Events([m])));
    assert Tells(threads, raisers, m) ==> m.event in Events([m]);
  }

  lemma {:induction false} OrderOnWire(threads: set<Thread>, raisers: seq<Thread>, wire: seq<Sent>)
    requires NonDecreasing(RaisedBy(threads, raisers, Events(wire)))
    ensures PairsOrdered(threads, raisers, wire)
    ensures forall m :: m in wire && Tells(threads, raisers, m) ==> m.event in RaisedBy(threads, raisers, Events(wire))
  {
    hide Tells;
    hide RaisedBy;
    hide Events;
    hide NonDecreasing;
    hide PairsOrdered;
    if wire == [] {
      NoPairs(threads, raisers);
    } else {
      var before, m := wire[..|wire| - 1], wire[|wire| - 1];
      assert wire == before + [m];
      ToldRaised(threads, raisers, before, m);
      OrderOnWire(threads, raisers, before);
      OneMorePair(threads, raisers, before, m);
    }
  }

  lemma NoPairs(threads: set<Thread>, raisers: seq<Thread>)
    ensures PairsOrdered(threads, raisers, [])
  {
  }

  lemma {:induction false} NotDirectOnWire(wire: seq<Sent>)
    ensures forall m :: m in NotDirect(wire) || m in OnlyDirect(wire) ==> m in wire
  {
    if wire != [] {
      NotDirectOnWire(wire[..|wire| - 1]);
      assert wire == wire[..|wire| - 1] + [wire[|wire| - 1]];
    }
  }

  /** Known throughout: in every snapshot, and whenever an event was sent directly. */
  ghost predicate AlwaysClient(s: System, c: Client) {
    && (forall i :: 0 <= i < |s.batches| ==> c in s.batches[i].snapshot)
    && (forall i :: 0 <= i < |s.direct| ==> c in s.direct[i].clients)
  }

  lemma {:induction false} InFlush(events: seq<nat>, clients: seq<Client>, e: nat, c: Client)
    requires e in events && c in clients
    ensures Flushed(e, c) in Flush(events, clients)
  {
    if e == events[0] {
      var i :| 0 <= i < |clients| && clients[i] == c;
      assert FlushedTo(e, clients)[i] == Flushed(e, c);
    } else {
      assert events == [events[0]] + events[1..];
      InFlush(events[1..], clients, e, c);
    }
  }

  lemma {:induction false} InScript(batches: seq<Batch>, e: nat, c: Client)
    requires e in Deferred(batches) && forall i :: 0 <= i < |batches| ==> c in batches[i].snapshot
    ensures Flushed(e, c) in Script(batches)
  {
    var b := batches[|batches| - 1];
    if e in b.deferred {
      InFlush(b.deferred, b.snapshot, e, c);
    } else {
      InScript(batches[..|batches| - 1], e, c);
    }
  }

  lemma {:induction false} InDirectScript(direct: seq<Delivery>, e: nat, c: Client)
    requires e in EventsOf(direct) && forall i :: 0 <= i < |direct| ==> c in direct[i].clients
    ensures Direct(e, c) in DirectScript(direct)
  {
    var n := |direct| - 1;
    var d := direct[n];
    if e == d.event {
      var i :| 0 <= i < |d.clients| && d.clients[i] == c;
      assert DirectTo(e, d.clients)[i] == Direct(e, c);
    } else {
      assert EventsOf(direct) == EventsOf(direct[..n]) + [d.event];
      InDirectScript(direct[..n], e, c);
    }
  }

  lemma NothingInFlight(s: System, e: nat)
    requires s.inFlight == map[]
    ensures !BetweenSections(s, e)
  {
  }

  /** At rest, every event raised has gone to a client known throughout. */
  lemma Arrived(publishers: set<nat>, run: seq<Step>, c: Client, e: nat)
    requires var s := After(publishers, run);
             s.receiver.Idle? && s.inFlight == map[] && AlwaysClient(s, c) && e < |s.fates|
    ensures var wire := After(publishers, run).shared.wire; Flushed(e, c) in wire || Direct(e, c) in wire
  {
    hide After;
    hide Script;
    hide DirectScript;
    hide Deferred;
    hide NotDirect;
    hide OnlyDirect;
    hide NoRepeat;
    hide EventsOf;
    var s := After(publishers, run);
    OneFate(publishers, run, e);
    NothingInFlight(s, e);
    DirectOnWire(publishers, run);
    FlushedOnWire(publishers, run);
    NotDirectOnWire(s.shared.wire);
    if e in DeferredLine(s) {
      InScript(s.batches, e, c);
    } else {
      InDirectScript(s.direct, e, c);
    }
  }

  /** On the wire, event e reaches client c, and none of the threads' events reaches it later. */
  ghost predicate LastTo(threads: set<Thread>, s: System, c: Client, e: nat) {
    exists i :: 0 <= i < |s.shared.wire| && Hears(s.shared.wire[i], e, c) &&
                forall j :: i < j < |s.shared.wire| ==>
                              !(Tells(threads, s.raisers, s.shared.wire[j]) && s.shared.wire[j].to == c)
  }

  predicate Hears(m: Sent, e: nat, c: Client) {
    !m.Response? && m.event == e && m.to == c
  }

  /**
   * At rest, the last thing a client known throughout has been told by threads that are no publishers is the newest
   * event they have raised.
   */
  lemma NewestLastIfNone(publishers: set<nat>, threads: set<Thread>, run: seq<Step>, c: Client, e: nat)
    requires NoPublisher(publishers, threads)
    requires Resting(After(publishers, run), threads, c, e)
    ensures LastTo(threads, After(publishers, run), c, e)
  {
    hide After;
    hide RaisedBy;
    hide Events;
    hide By;
    hide AlwaysClient;
    var s := After(publishers, run);
    AlwaysKept(publishers, threads, run);
    KeptOrder(threads, s);
    OrderOnWire(threads, s.raisers, s.shared.wire);
    RaisedBefore(threads, s, e);
    hide Kept;
    Arrived(publishers, run, c, e);
    NeverTwice(publishers, run);
    hide Script;
    hide DirectScript;
    hide Deferred;
    hide NonDecreasing;
    var m := if Flushed(e, c) in s.shared.wire then Flushed(e, c) else Direct(e, c);
    var i :| 0 <= i < |s.shared.wire| && s.shared.wire[i] == m;
    assert Hears(s.shared.wire[i], e, c);
    forall j | i < j < |s.shared.wire|
      ensures !(Tells(threads, s.raisers, s.shared.wire[j]) && s.shared.wire[j].to == c)
    {
      assert !SameSent(s.shared.wire[i], s.shared.wire[j]);
      assert Tells(threads, s.raisers, s.shared.wire[i]);
    }
  }

  /** At rest, whatever has happened, a client known throughout has been told the threads' newest event last. */
  ghost predicate NewestLast(publishers: set<nat>, threads: set<Thread>) {
    forall run: seq<Step>, c: Client, e: nat ::
      Resting(After(publishers, run), threads, c, e) ==> LastTo(threads, After(publishers, run), c, e)
  }

  ghost predicate Resting(s: System, threads: set<Thread>, c: Client, e: nat) {
    && s.receiver.Idle? && s.inFlight == map[] && AlwaysClient(s, c)
    && By(threads, s.raisers, e) && forall x :: x > e ==> !By(threads, s.raisers, x)
  }

  lemma OvertakenLast(publishers: set<nat>, threads: set<Thread>, id: nat)
    requires id in publishers && Publisher(id) in threads
    ensures var s := After(publishers, Overtaking(id)); Resting(s, threads, 0, 1) && !LastTo(threads, s, 0, 1)
  {
    EventOvertaken(publishers, id);
    hide After;
    hide Overtaking;
    var s := After(publishers, Overtaking(id));
    assert Tells(threads, s.raisers, s.shared.wire[2]) && s.shared.wire[2].to == 0;
    assert !Hears(s.shared.wire[1], 1, 0) && !Hears(s.shared.wire[2], 1, 0);
  }

  /**
   * What some threads tell is told last newest, in every run and to every client known throughout, iff no publisher is
   * among them. So a mirror kept from the last event of a kind can be trusted iff only the receive thread raises it.
   */
  lemma NewestLastIffNone(publishers: set<nat>, threads: set<Thread>)
    ensures NewestLast(publishers, threads) <==> NoPublisher(publishers, threads)
  {
    hide After;
    hide LastTo;
    if NoPublisher(publishers, threads) {
      forall run: seq<Step>, c: Client, e: nat | Resting(After(publishers, run), threads, c, e)
        ensures LastTo(threads, After(publishers, run), c, e)
      {
        NewestLastIfNone(publishers, threads, run, c, e);
      }
    } else {
      var id :| id in publishers && Publisher(id) in threads;
      OvertakenLast(publishers, threads, id);
      hide Resting;
    }
  }

  lemma RaisedBefore(threads: set<Thread>, s: System, e: nat)
    requires Kept(threads, s) && By(threads, s.raisers, e)
    ensures e < |s.fates|
  {
    hide Lined;
  }
}
