/** Who is answered and who is told: the responses on the wire and the known clients, from what was received alone. */
module RequestLaw {
  import opened SomeIpDeferral

  // ----- The known clients -----

  /** A client is known from its first message on until its connection is lost, and again from its next message on. */
  predicate KnownAfter(publishers: set<nat>, run: seq<Step>, c: Client) {
    if run == [] then false
    else
      var before, step := run[..|run| - 1], run[|run| - 1];
      match step
      case Receive(sender, _) =>
        (sender == c && After(publishers, before).receiver.Idle?) || KnownAfter(publishers, before, c)
      case ConnectionLost(client) => client != c && KnownAfter(publishers, before, c)
      case _ => KnownAfter(publishers, before, c)
  }

  lemma StepClients(publishers: set<nat>, s: System, step: Step)
    requires Enabled(publishers, s, step) && Ascending(s.shared.clients)
    ensures var before, clients := s.shared.clients, Next(publishers, s, step).shared.clients;
            && Ascending(clients)
            && forall c :: c in clients <==>
                 if step.Receive? then c == step.sender || c in before
                 else if step.ConnectionLost? then c != step.client && c in before
                 else c in before
  {
    hide Ascending;
    hide Insert;
    hide Erase;
    match step {
      case Receive(sender, _) => InsertMembers(s.shared.clients, sender);
      case ConnectionLost(c) => EraseMembers(s.shared.clients, c);
      case _ =>
    }
  }

  /** Over any run, the client set is that. */
  lemma {:induction false} ClientsKnown(publishers: set<nat>, run: seq<Step>)
    ensures var clients := After(publishers, run).shared.clients;
            Ascending(clients) && forall c :: c in clients <==> KnownAfter(publishers, run, c)
  {
    hide Ascending;
    hide Next;
    if run == [] {
      NobodyKnown();
    } else {
      var before, step := run[..|run| - 1], run[|run| - 1];
      ClientsKnown(publishers, before);
      if Enabled(publishers, After(publishers, before), step) {
        StepClients(publishers, After(publishers, before), step);
      }
    }
  }

  lemma NobodyKnown()
    ensures Ascending([])
  {
  }

  lemma {:induction false} FlushMembers(events: seq<nat>, clients: seq<Client>)
    ensures forall m :: m in Flush(events, clients) <==> m.Flushed? && m.event in events && m.to in clients
  {
    if events != [] {
      FlushMembers(events[1..], clients);
      OneEventMembers(events[0], clients);
      hide FlushedTo;
    }
  }

  lemma OneEventMembers(event: nat, clients: seq<Client>)
    ensures forall m :: m in FlushedTo(event, clients) <==> m.Flushed? && m.event == event && m.to in clients
    ensures forall m :: m in DirectTo(event, clients) <==> m.Direct? && m.event == event && m.to in clients
  {
    forall c | c in clients
      ensures Flushed(event, c) in FlushedTo(event, clients) && Direct(event, c) in DirectTo(event, clients)
    {
      var i :| 0 <= i < |clients| && clients[i] == c;
      assert FlushedTo(event, clients)[i] == Flushed(event, c) && DirectTo(event, clients)[i] == Direct(event, c);
    }
  }

  lemma FlushLength(events: seq<nat>, clients: seq<Client>)
    ensures |Flush(events, clients)| == |events| * |clients|
  {
    if events != [] {
      FlushLength(events[1..], clients);
      assert |events| * |clients| == |clients| + (|events| - 1) * |clients|;
    }
  }

  /** Event by event, and each to the clients in their order. */
  lemma {:induction false} FlushAt(events: seq<nat>, clients: seq<Client>, k: nat, i: nat)
    requires k < |events| && i < |clients|
    ensures 0 <= k * |clients| + i < |Flush(events, clients)| == |events| * |clients|
    ensures Flush(events, clients)[k * |clients| + i] == Flushed(events[k], clients[i])
  {
    FlushLength(events, clients);
    if k > 0 {
      FlushAt(events[1..], clients, k - 1, i);
      assert k * |clients| + i == |clients| + ((k - 1) * |clients| + i);
    } else {
      assert |events| * |clients| == |clients| + (|events| - 1) * |clients|;
      assert (|events| - 1) * |clients| >= 0;
    }
  }

  /** A direct event goes out at once to exactly the clients known then. */
  lemma DirectReaches(publishers: set<nat>, run: seq<Step>, t: Thread)
    requires t in After(publishers, run).inFlight
    ensures var s, s' := After(publishers, run), After(publishers, run + [SendDirect(t)]);
            && s.shared.wire <= s'.shared.wire
            && forall m :: m in s'.shared.wire[|s.shared.wire|..] <==>
                 m.Direct? && m.event == s.inFlight[t] && KnownAfter(publishers, run, m.to)
  {
    var s := After(publishers, run);
    assert (run + [SendDirect(t)])[..|run|] == run;
    ClientsKnown(publishers, run);
    OneEventMembers(s.inFlight[t], s.shared.clients);
    hide KnownAfter;
    hide DirectTo;
  }

  /** After a response, what is to be flushed is every deferred event for every client known then. */
  lemma FlushReaches(publishers: set<nat>, run: seq<Step>)
    requires After(publishers, run).receiver.Answered?
    ensures var s, s' := After(publishers, run), After(publishers, run + [TakeSnapshot]);
            && s'.receiver.Flushing?
            && forall m :: m in s'.receiver.todo <==>
                 m.Flushed? && m.event in s.receiver.deferred && KnownAfter(publishers, run, m.to)
  {
    var s := After(publishers, run);
    assert (run + [TakeSnapshot])[..|run|] == run;
    ClientsKnown(publishers, run);
    FlushMembers(s.receiver.deferred, s.shared.clients);
    hide KnownAfter;
    hide Flush;
  }

  // ----- The responses -----

  /** Who sent a request, in the order the receive thread took them. */
  function Askers(publishers: set<nat>, run: seq<Step>): seq<Client> {
    if run == [] then []
    else
      var before, step := Askers(publishers, run[..|run| - 1]), run[|run| - 1];
      if step.Receive? && step.isRequest && After(publishers, run[..|run| - 1]).receiver.Idle? then
        before + [step.sender]
      else before
  }

  /** The responses on the wire, in order. */
  function Responses(wire: seq<Sent>): seq<Sent> {
    if wire == [] then []
    else
      var before, m := Responses(wire[..|wire| - 1]), wire[|wire| - 1];
      if m.Response? then before + [m] else before
  }

  lemma {:induction false} ResponsesConcat(a: seq<Sent>, b: seq<Sent>)
    ensures Responses(a + b) == Responses(a) + Responses(b)
  {
    if b == [] {
      assert a + b == a;
    } else {
      ResponsesConcat(a, b[..|b| - 1]);
      assert (a + b)[..|a + b| - 1] == a + b[..|b| - 1];
    }
  }

  lemma {:induction false} NoResponses(wire: seq<Sent>)
    requires forall m :: m in wire ==> !m.Response?
    ensures Responses(wire) == []
  {
    if wire != [] {
      NoResponses(wire[..|wire| - 1]);
    }
  }

  lemma OneResponse(m: Sent)
    ensures Responses([m]) == if m.Response? then [m] else []
  {
    assert [m][..0] == [];
  }

  /** A request is being worked on that has no response yet. */
  predicate Unanswered(r: Receiver) {
    r.Entered? || r.Handling? || r.Answering?
  }

  /** All requests but the one being worked on have their response, each to its own sender. */
  ghost predicate Answered(s: System, askers: seq<Client>) {
    var responses := Responses(s.shared.wire);
    && s.requests == |askers|
    && |responses| + (if Unanswered(s.receiver) then 1 else 0) == |askers|
    && (forall k :: 0 <= k < |responses| ==> responses[k] == Response(k, askers[k]))
    && (Unanswered(s.receiver) ==>
          s.receiver.request == |responses| && s.receiver.sender == askers[|responses|])
    && (s.receiver.Flushing? ==> forall m :: m in s.receiver.todo ==> !m.Response?)
  }

  lemma {:induction false} FlushedOnly(events: seq<nat>, clients: seq<Client>)
    ensures forall m :: m in Flush(events, clients) ==> !m.Response?
  {
    if events != [] {
      FlushedOnly(events[1..], clients);
    }
  }

  lemma DirectOnly(wire: seq<Sent>, e: nat, clients: seq<Client>)
    ensures Responses(wire + DirectTo(e, clients)) == Responses(wire)
  {
    ResponsesConcat(wire, DirectTo(e, clients));
    NoResponses(DirectTo(e, clients));
    hide Responses;
  }

  lemma Transmitted(wire: seq<Sent>, m: Sent)
    ensures Responses(wire + [m]) == if m.Response? then Responses(wire) + [m] else Responses(wire)
  {
    ResponsesConcat(wire, [m]);
    OneResponse(m);
    hide Responses;
  }

  lemma StepAnswered(publishers: set<nat>, s: System, step: Step, askers: seq<Client>)
    requires Enabled(publishers, s, step) && Answered(s, askers)
    ensures Answered(Next(publishers, s, step),
                     if step.Receive? && step.isRequest then askers + [step.sender] else askers)
  {
    hide Responses;
    hide Insert;
    hide Erase;
    hide Flush;
    hide DirectTo;
    match step {
      case SendDirect(t) => DirectOnly(s.shared.wire, s.inFlight[t], s.shared.clients);
      case Respond => Transmitted(s.shared.wire, Response(s.receiver.request, s.receiver.sender));
      case TakeSnapshot => FlushedOnly(s.receiver.deferred, s.shared.clients);
      case FlushOne => Transmitted(s.shared.wire, s.receiver.todo[0]);
      case _ =>
    }
  }

  lemma {:induction false} AlwaysAnswered(publishers: set<nat>, run: seq<Step>)
    ensures Answered(After(publishers, run), Askers(publishers, run))
  {
    hide Answered;
    hide Next;
    if run == [] {
      NoneAsked();
    } else {
      var before, step := run[..|run| - 1], run[|run| - 1];
      AlwaysAnswered(publishers, before);
      if Enabled(publishers, After(publishers, before), step) {
        StepAnswered(publishers, After(publishers, before), step, Askers(publishers, before));
      }
    }
  }

  lemma NoneAsked()
    ensures Answered(START, [])
  {
  }

  /** Requests are answered in order, each once and to its own sender; when the receive thread rests, all of them. */
  lemma EachAskerAnswered(publishers: set<nat>, run: seq<Step>)
    ensures var responses, askers := Responses(After(publishers, run).shared.wire), Askers(publishers, run);
            && |responses| <= |askers|
            && (forall k :: 0 <= k < |responses| ==> responses[k] == Response(k, askers[k]))
            && (After(publishers, run).receiver.Idle? ==> |responses| == |askers|)
  {
    AlwaysAnswered(publishers, run);
    hide After;
    hide Responses;
    hide Askers;
  }
}
