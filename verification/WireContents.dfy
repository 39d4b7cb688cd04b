/** What the SOME/IP system has put on the wire, in every reachable state of the deferral protocol. */
module WireContents {
  import opened SomeIpDeferral

  /** What the receive thread puts on the wire: for each request the response, then each event to each client. */
  function Script(batches: seq<Batch>): seq<Sent> {
    if batches == [] then []
    else
      var b := batches[|batches| - 1];
      Script(batches[..|batches| - 1]) + [Response(b.request, b.sender)] + Flush(b.deferred, b.snapshot)
  }

  function NotDirect(wire: seq<Sent>): seq<Sent> {
    if wire == [] then []
    else
      var m := wire[|wire| - 1];
      NotDirect(wire[..|wire| - 1]) + if m.Direct? then [] else [m]
  }

  function Answer(r: Receiver): seq<Sent> {
    if r.Answered? then [Response(r.request, r.sender)] else []
  }

  function Todo(r: Receiver): seq<Sent> {
    if r.Flushing? then r.todo else []
  }

  /** The receive thread's share of the wire follows the script. */
  ghost predicate Scripted(s: System) {
    && NotDirect(s.shared.wire) + Todo(s.receiver) == Script(s.batches) + Answer(s.receiver)
    && forall m :: m in Todo(s.receiver) ==> m.Flushed?
  }

  lemma {:induction false} NotDirectAppend(wire: seq<Sent>, more: seq<Sent>)
    ensures NotDirect(wire + more) == NotDirect(wire) + NotDirect(more)
  {
    if more == [] {
      assert wire + more == wire;
    } else {
      var start := more[..|more| - 1];
      NotDirectAppend(wire, start);
      assert (wire + more)[..|wire + more| - 1] == wire + start;
    }
  }

  lemma {:induction false} DirectInvisible(event: nat, clients: seq<Client>)
    ensures NotDirect(DirectTo(event, clients)) == []
  {
    if clients != [] {
      var start := clients[..|clients| - 1];
      DirectInvisible(event, start);
      assert DirectTo(event, clients)[..|clients| - 1] == DirectTo(event, start);
    }
  }

  lemma {:induction false} FlushOnlyFlushed(events: seq<nat>, clients: seq<Client>)
    ensures forall m :: m in Flush(events, clients) ==> m.Flushed?
  {
    if events != [] {
      FlushOnlyFlushed(events[1..], clients);
    }
  }

  lemma AnswerVisible(wire: seq<Sent>, m: Sent)
    requires !m.Direct?
    ensures NotDirect(wire + [m]) == NotDirect(wire) + [m]
  {
    assert (wire + [m])[..|wire|] == wire;
  }

  lemma ScriptAppend(batches: seq<Batch>, b: Batch)
    ensures Script(batches + [b]) == Script(batches) + [Response(b.request, b.sender)] + Flush(b.deferred, b.snapshot)
  {
    assert (batches + [b])[..|batches|] == batches;
  }

  lemma StepScripted(publishers: set<nat>, s: System, step: Step)
    requires Enabled(publishers, s, step) && Scripted(s)
    ensures Scripted(Next(publishers, s, step))
  {
    hide NotDirect;
    hide Script;
    hide Flush;
    match step {
      case SendDirect(t) =>
        NotDirectAppend(s.shared.wire, DirectTo(s.inFlight[t], s.shared.clients));
        DirectInvisible(s.inFlight[t], s.shared.clients);
      case Respond =>
        AnswerVisible(s.shared.wire, Response(s.receiver.request, s.receiver.sender));
        assert NotDirect(s.shared.wire) + [] == NotDirect(s.shared.wire);
        assert Script(s.batches) + [] == Script(s.batches);
      case TakeSnapshot =>
        FlushOnlyFlushed(s.receiver.deferred, s.shared.clients);
        var batches := Next(publishers, s, step).batches;
        ScriptAppend(s.batches, batches[|s.batches|]);
      case FlushOne =>
        assert s.receiver.todo[0] in Todo(s.receiver);
        AnswerVisible(s.shared.wire, s.receiver.todo[0]);
        assert s.receiver.todo == [s.receiver.todo[0]] + s.receiver.todo[1..];
      case _ =>
    }
  }

  function OnlyDirect(wire: seq<Sent>): seq<Sent> {
    if wire == [] then []
    else
      var m := wire[|wire| - 1];
      OnlyDirect(wire[..|wire| - 1]) + if m.Direct? then [m] else []
  }

  /** What the second section of sendEvent puts on the wire: each event to each client then known. */
  function DirectScript(direct: seq<Delivery>): seq<Sent> {
    if direct == [] then []
    else
      var d := direct[|direct| - 1];
      DirectScript(direct[..|direct| - 1]) + DirectTo(d.event, d.clients)
  }

  ghost predicate Directed(s: System) {
    && OnlyDirect(s.shared.wire) == DirectScript(s.direct)
    && forall m :: m in Todo(s.receiver) ==> m.Flushed?
  }

  lemma {:induction false} OnlyDirectAppend(wire: seq<Sent>, more: seq<Sent>)
    ensures OnlyDirect(wire + more) == OnlyDirect(wire) + OnlyDirect(more)
  {
    if more == [] {
      assert wire + more == wire;
    } else {
      var start := more[..|more| - 1];
      OnlyDirectAppend(wire, start);
      assert (wire + more)[..|wire + more| - 1] == wire + start;
    }
  }

  lemma {:induction false} DirectVisible(event: nat, clients: seq<Client>)
    ensures OnlyDirect(DirectTo(event, clients)) == DirectTo(event, clients)
  {
    if clients != [] {
      var start := clients[..|clients| - 1];
      DirectVisible(event, start);
      assert DirectTo(event, clients)[..|clients| - 1] == DirectTo(event, start);
    }
  }

  lemma OtherInvisible(wire: seq<Sent>, m: Sent)
    requires !m.Direct?
    ensures OnlyDirect(wire + [m]) == OnlyDirect(wire)
  {
    assert (wire + [m])[..|wire|] == wire;
  }

  lemma DirectScriptAppend(direct: seq<Delivery>, d: Delivery)
    ensures DirectScript(direct + [d]) == DirectScript(direct) + DirectTo(d.event, d.clients)
  {
    assert (direct + [d])[..|direct|] == direct;
  }

  lemma StepDirected(publishers: set<nat>, s: System, step: Step)
    requires Enabled(publishers, s, step) && Directed(s)
    ensures Directed(Next(publishers, s, step))
  {
    hide OnlyDirect;
    hide DirectScript;
    hide DirectTo;
    hide Flush;
    match step {
      case SendDirect(t) =>
        OnlyDirectAppend(s.shared.wire, DirectTo(s.inFlight[t], s.shared.clients));
        DirectVisible(s.inFlight[t], s.shared.clients);
        DirectScriptAppend(s.direct, Delivery(s.inFlight[t], s.shared.clients));
      case Respond => OtherInvisible(s.shared.wire, Response(s.receiver.request, s.receiver.sender));
      case TakeSnapshot => FlushOnlyFlushed(s.receiver.deferred, s.shared.clients);
      case FlushOne =>
        assert s.receiver.todo[0] in Todo(s.receiver);
        OtherInvisible(s.shared.wire, s.receiver.todo[0]);
      case _ =>
    }
  }

  /** No client is known twice, now or in any snapshot. */
  ghost predicate ClientsOnce(s: System) {
    && Ascending(s.shared.clients)
    && (forall i :: 0 <= i < |s.batches| ==> Ascending(s.batches[i].snapshot))
    && (forall i :: 0 <= i < |s.direct| ==> Ascending(s.direct[i].clients))
  }

  lemma StepClients(publishers: set<nat>, s: System, step: Step)
    requires Enabled(publishers, s, step) && ClientsOnce(s)
    ensures ClientsOnce(Next(publishers, s, step))
  {
    hide Ascending;
    match step {
      case Receive(sender, _) => InsertMembers(s.shared.clients, sender);
      case ConnectionLost(client) => EraseMembers(s.shared.clients, client);
      case _ =>
    }
  }

  /** The same event to the same client. */
  predicate SameSent(a: Sent, b: Sent) {
    !a.Response? && !b.Response? && a.event == b.event && a.to == b.to
  }

  ghost predicate NoRepeat(wire: seq<Sent>) {
    forall i, j :: 0 <= i < j < |wire| ==> !SameSent(wire[i], wire[j])
  }

  ghost predicate Apart(a: seq<Sent>, b: seq<Sent>) {
    forall x, y :: x in a && y in b ==> !SameSent(x, y)
  }

  lemma JoinNoRepeat(a: seq<Sent>, b: seq<Sent>)
    requires NoRepeat(a) && NoRepeat(b) && Apart(a, b)
    ensures NoRepeat(a + b)
  {
    hide SameSent;
    var s := a + b;
    forall i, j | 0 <= i < j < |s|
      ensures !SameSent(s[i], s[j])
    {
      if i < |a| <= j {
        assert s[i] in a && s[j] in b;
      }
    }
  }

  lemma SplitNoRepeat(a: seq<Sent>, b: seq<Sent>)
    requires NoRepeat(a + b)
    ensures NoRepeat(a) && NoRepeat(b) && Apart(a, b)
  {
    hide SameSent;
    var s := a + b;
    forall i, j | 0 <= i < j < |a|
      ensures !SameSent(a[i], a[j])
    {
      assert s[i] == a[i] && s[j] == a[j];
    }
    forall i, j | 0 <= i < j < |b|
      ensures !SameSent(b[i], b[j])
    {
      assert s[|a| + i] == b[i] && s[|a| + j] == b[j];
    }
    forall x, y | x in a && y in b
      ensures !SameSent(x, y)
    {
      var i :| 0 <= i < |a| && a[i] == x;
      var j :| 0 <= j < |b| && b[j] == y;
      assert s[i] == x && s[|a| + j] == y;
    }
  }

  /** New messages in the middle, apart from everything before and after. */
  lemma InsertNoRepeat(a: seq<Sent>, more: seq<Sent>, b: seq<Sent>)
    requires NoRepeat(a + b) && NoRepeat(more) && Apart(a, more) && Apart(more, b)
    ensures NoRepeat(a + more + b)
  {
    SplitNoRepeat(a, b);
    JoinNoRepeat(a, more);
    assert Apart(a + more, b);
    hide NoRepeat;
    hide SameSent;
    JoinNoRepeat(a + more, b);
  }

  lemma DirectOnce(event: nat, clients: seq<Client>)
    requires Ascending(clients)
    ensures NoRepeat(DirectTo(event, clients))
    ensures forall m :: m in DirectTo(event, clients) ==> m.Direct? && m.event == event
  {
  }

  lemma FlushedOnce(event: nat, clients: seq<Client>)
    requires Ascending(clients)
    ensures NoRepeat(FlushedTo(event, clients))
    ensures forall m :: m in FlushedTo(event, clients) ==> m.Flushed? && m.event == event
  {
  }

  lemma {:induction false} FlushOnce(events: seq<nat>, clients: seq<Client>)
    requires Ascending(events) && Ascending(clients)
    ensures NoRepeat(Flush(events, clients))
    ensures forall m :: m in Flush(events, clients) ==> m.Flushed? && m.event in events
  {
    hide NoRepeat;
    if events != [] {
      HeadAndTail(events);
      FlushedOnce(events[0], clients);
      FlushOnce(events[1..], clients);
      JoinNoRepeat(FlushedTo(events[0], clients), Flush(events[1..], clients));
    } else {
      assert NoRepeat([]) by {
        EmptyNoRepeat();
      }
    }
  }

  lemma EmptyNoRepeat()
    ensures NoRepeat([])
  {
  }

  /** What is or will be on the wire comes from an event sent directly or flushed, each to a client once. */
  ghost predicate SentOnce(s: System) {
    var wire := s.shared.wire + Todo(s.receiver);
    && NoRepeat(wire)
    && (forall m :: m in wire && m.Direct? ==> m.event in EventsOf(s.direct))
    && (forall m :: m in wire && m.Flushed? ==> m.event in Deferred(s.batches))
  }

  lemma SendOnce(publishers: set<nat>, s: System, t: Thread)
    requires t in s.inFlight && Ledger(s) && ClientsOnce(s) && SentOnce(s)
    ensures SentOnce(Next(publishers, s, SendDirect(t)))
  {
    var e, wire, todo := s.inFlight[t], s.shared.wire, Todo(s.receiver);
    var more := DirectTo(e, s.shared.clients);
    DirectOnce(e, s.shared.clients);
    assert e !in EventsOf(s.direct) && e !in DeferredLine(s);
    assert forall x :: x in Deferred(s.batches) ==> x in DeferredLine(s);
    assert forall m :: m in wire || m in todo ==> m in wire + todo;
    assert Apart(wire, more) && Apart(more, todo);
    assert EventsOf(s.direct + [Delivery(e, s.shared.clients)]) == EventsOf(s.direct) + [e];
    hide NoRepeat;
    hide DirectTo;
    hide Deferred;
    hide EventsOf;
    InsertNoRepeat(wire, more, todo);
    assert forall m :: m in wire + more + todo <==> m in wire + todo || m in more;
  }

  lemma RespondOnce(publishers: set<nat>, s: System)
    requires s.receiver.Answering? && SentOnce(s)
    ensures SentOnce(Next(publishers, s, Respond))
  {
    var wire, m := s.shared.wire, Response(s.receiver.request, s.receiver.sender);
    assert wire + [] == wire && wire + [m] + [] == wire + [m];
    assert forall x :: x in wire + [m] ==> x in wire || x == m;
    assert NoRepeat([m]) && Apart(wire, [m]);
    JoinNoRepeat(wire, [m]);
    hide NoRepeat;
    hide Deferred;
    hide EventsOf;
  }

  lemma SnapshotOnce(publishers: set<nat>, s: System)
    requires s.receiver.Answered? && Ledger(s) && ClientsOnce(s) && SentOnce(s)
    ensures SentOnce(Next(publishers, s, TakeSnapshot))
  {
    var wire, events, clients := s.shared.wire, s.receiver.deferred, s.shared.clients;
    var batch := Batch(s.receiver.request, s.receiver.sender, events, clients);
    assert (s.batches + [batch])[..|s.batches|] == s.batches;
    LineParts(s, events);
    FlushOnce(events, clients);
    assert wire + [] == wire;
    assert Apart(wire, Flush(events, clients));
    hide NoRepeat;
    hide Flush;
    hide EventsOf;
    JoinNoRepeat(wire, Flush(events, clients));
  }

  /** Events in hand are in order, and apart from those flushed before and those sent directly. */
  lemma LineParts(s: System, events: seq<nat>)
    requires Ledger(s) && InHand(s.receiver) == events
    ensures Ascending(events)
    ensures forall e :: e in events ==> e !in Deferred(s.batches) && e !in EventsOf(s.direct)
  {
    var before, line := Deferred(s.batches), DeferredLine(s);
    forall i | 0 <= i < |events|
      ensures events[i] == line[|before| + i] && events[i] in line
    {
    }
    forall i, j | 0 <= i < |events| && 0 <= j < |before|
      ensures before[j] != events[i]
    {
      assert line[j] == before[j] && line[|before| + i] == events[i];
    }
    hide Deferred;
    hide EventsOf;
  }

  lemma StepOnce(publishers: set<nat>, s: System, step: Step)
    requires Enabled(publishers, s, step) && Ledger(s) && ClientsOnce(s) && SentOnce(s)
    ensures SentOnce(Next(publishers, s, step))
  {
    match step {
      case SendDirect(t) => SendOnce(publishers, s, t);
      case Respond => RespondOnce(publishers, s);
      case TakeSnapshot => SnapshotOnce(publishers, s);
      case FlushOne =>
        assert s.shared.wire + s.receiver.todo ==
               s.shared.wire + [s.receiver.todo[0]] + s.receiver.todo[1..];
        hide NoRepeat;
        hide Deferred;
      case _ =>
        hide NoRepeat;
        hide Deferred;
    }
  }

  // ----- Over all runs -----

  ghost predicate Wired(s: System) {
    Scripted(s) && Directed(s) && ClientsOnce(s) && SentOnce(s)
  }

  lemma {:induction false} AlwaysWired(publishers: set<nat>, run: seq<Step>)
    ensures Wired(After(publishers, run))
  {
    hide Next;
    hide Sound;
    hide Scripted;
    hide Directed;
    hide ClientsOnce;
    hide SentOnce;
    if run == [] {
      StartWired();
    } else {
      var s, step := After(publishers, run[..|run| - 1]), run[|run| - 1];
      AlwaysWired(publishers, run[..|run| - 1]);
      AlwaysSound(publishers, run[..|run| - 1]);
      if Enabled(publishers, s, step) {
        StepScripted(publishers, s, step);
        StepDirected(publishers, s, step);
        StepClients(publishers, s, step);
        SoundLedger(s);
        StepOnce(publishers, s, step);
      }
    }
  }

  lemma SoundLedger(s: System)
    requires Sound(s)
    ensures Ledger(s)
  {
    hide Ledger;
  }

  lemma StartWired()
    ensures Wired(START)
  {
  }

  /** The direct messages on the wire are, event by event, one to each client then known. */
  lemma DirectOnWire(publishers: set<nat>, run: seq<Step>)
    ensures var s := After(publishers, run);
            && OnlyDirect(s.shared.wire) == DirectScript(s.direct)
            && (forall i :: 0 <= i < |s.direct| ==> Ascending(s.direct[i].clients))
  {
    AlwaysWired(publishers, run);
    hide After;
    hide OnlyDirect;
    hide DirectScript;
    hide Ledger;
    hide SentOnce;
  }

  /**
   * When the receive thread rests, the other messages are, request by request, the response and then the events
   * deferred under it, in the order they were raised, one to each client of the snapshot.
   */
  lemma FlushedOnWire(publishers: set<nat>, run: seq<Step>)
    requires After(publishers, run).receiver.Idle?
    ensures var s := After(publishers, run);
            && NotDirect(s.shared.wire) == Script(s.batches)
            && DeferredLine(s) == Deferred(s.batches)
            && (forall i :: 0 <= i < |s.batches| ==> Ascending(s.batches[i].snapshot))
  {
    AlwaysSound(publishers, run);
    AlwaysWired(publishers, run);
    hide After;
    hide NotDirect;
    hide Script;
    hide Deferred;
    hide Ledger;
    hide SentOnce;
    var s := After(publishers, run);
    assert NotDirect(s.shared.wire) + Todo(s.receiver) == NotDirect(s.shared.wire);
    assert Script(s.batches) + Answer(s.receiver) == Script(s.batches);
  }

  /** No event reaches a client twice. */
  lemma NeverTwice(publishers: set<nat>, run: seq<Step>)
    ensures NoRepeat(After(publishers, run).shared.wire)
  {
    AlwaysWired(publishers, run);
    hide After;
    hide NoRepeat;
    hide Ledger;
    var s := After(publishers, run);
    SplitNoRepeat(s.shared.wire, Todo(s.receiver));
  }
}
